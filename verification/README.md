# Product customizer: pricing engines, configuration edits and validators

This project models the core of a Shopify admin app. The app lets merchants attach a
*customizer configuration* to a product: an ordered list of blocks stored as JSON in the
product's `custom.options` metafield. The block types are `config`, `picker`, `input` and
`area`, and pickers may hold one level of conditional nested pickers. A shopper's choices
form a *selection map* from block ids to values. The model covers:

- **Checkout pricing** (`CartPricing`, `CartTransform`). The cart-transform function's
  `computeTotalPrice` computes `(unit_price + addedSum) * (multiplierSum || 1)`. The result
  is scaled by the width of the first enabled area block, and is 0 when that width is not
  positive. `cartTransformRun` turns priced cart lines into expand operations.
- **Preview pricing** (`PreviewPricing`). The editor's own `computeTotalPrice` uses a
  different formula:
  - a base price P0, which is the area price per m² when `base_source` is `"area"`;
  - linear or compound unit multipliers;
  - unit-scope and order-scope additions;
  - an area factor `w*h/10000`.
  It throws on a picker selection that matches no option, and the editor then shows 0.
- **Metafield validation** (`Metafield`, `ErrorKeys`). `parseMetafieldValue`,
  `validateMetafieldFields` and its error map keyed by field and option position, and the
  default fields and options.
- **The configuration editor** (`CustomizerEditor`, `Slug`, `Blocks`):
  - `parseInitial` and the default structure;
  - `slugify` and `createDefaultBlock`;
  - the block, picker option and nested group/item edits;
  - `moveBlock`, `toggleCollapse`, and `duplicateBlock` with its loop that searches for a
    free `-copy` id.
- **The bulk editor** (`BulkEditor`, `BlockCatalog`, `Shop`):
  - the three server actions, each a loop over products that reads, transforms and writes
    a configuration;
  - their tallies;
  - the `allBlocks` catalogue of block ids across products.
- **The option-list editors** (`MetafieldEditorState`, `ColorOptions`, `HeaderOptions`,
  `OptionLists`). Each editor is a class whose fields are the component's state and whose
  methods are its handlers. A method's contract states the whole new state and its tie to
  the validator.
- **The products page** (`ProductsRoute`). The search/tag filter, and the initial value
  handed to the editor.

JavaScript values are modelled by `Js.JsValue`, and numbers as reals. The following are
parameters of the model rather than defined by it:

- `parseFloat` (`Js.ParseFloat`);
- `JSON.parse` (`Js.JsonParse`, `CartTransform.ConfigDecoder`);
- the GraphQL reads and writes of the bulk editor (`BulkEditor.Fetch`, `BulkEditor.Save`);
- the random id suffix of `createDefaultBlock`.

Points where the two pricing engines, or the editor and its surroundings, behave differently:

- The checkout engine never prices `input` blocks. The preview engine scales a number
  input's rule by the entered quantity.
- Both engines evaluate every nested group whose `when.equals` matches the parent's
  selection, not only the first such group.
- The preview engine throws on a truthy picker selection that matches no option, where
  the checkout engine adds nothing for it. The editor's try/catch turns the throw into a
  displayed 0 (`PreviewPricing.UnmatchedSelectionShowsZero`).
- In the editor, `parseInitial("")` is `[]`, because `JSON.parse("[]")` is used. It is not
  the default structure.
- The only validator in the code checks metafield *fields* (label, key, options by type).
  Configuration blocks are not validated.

## Model

| member | source | states |
|---|---|---|
| CartPricing.ProcessPricing | extensions/cart-transformer/src/cart_transform_run.js:28-36 | `processPricing` adds the rule's value to the added total for mode "added" and to the multiplier total for "multiplier"; a missing rule, "none" or any other mode leaves both totals unchanged |
| CartPricing.ProcessSelection | extensions/cart-transformer/src/cart_transform_run.js:44-50 | the option whose value equals the selection contributes its rule, or its legacy `added` amount when it has no rule; no matching option contributes nothing |
| CartPricing.ProcessGroupItems | extensions/cart-transformer/src/cart_transform_run.js:55-65 | each item of an active group contributes its selected option when the item's own selection is truthy |
| CartPricing.ProcessItem | extensions/cart-transformer/src/cart_transform_run.js:56-64 | one item of an active group adds its selected option's share when its own selection is truthy, and nothing otherwise |
| CartPricing.ProcessNestedGroups | extensions/cart-transformer/src/cart_transform_run.js:52-68 | every nested group whose `when.equals` equals the parent's selection contributes its items; the others contribute nothing |
| CartPricing.ProcessBlock | extensions/cart-transformer/src/cart_transform_run.js:39-69 | one turn of the block loop adds exactly the block's share: its selected option and active nested groups for an enabled picker with a truthy selection, nothing otherwise |
| CartPricing.ComputeTotalPrice | extensions/cart-transformer/src/cart_transform_run.js:19-96 | the loop returns `TotalPrice`: 0 for a non-array; `(unit_price + added) * (multiplier or 1)` without an enabled area block; 0 for a non-positive width; otherwise width times that unit price |
| CartPricing.RemoveInertBlock | extensions/cart-transformer/src/cart_transform_run.js:38-43 | a block that is not config, not an enabled area and not an enabled picker (so every `input` block) can be deleted without changing the price |
| CartPricing.DisabledBlockIsRemoved | extensions/cart-transformer/src/cart_transform_run.js:39 | switching any non-config block off prices exactly like deleting it |
| CartPricing.TotalPriceAgree | extensions/cart-transformer/src/cart_transform_run.js:40-57 | two selection maps that agree on every id the configuration uses (a falsy value reading like none) give the same price |
| CartPricing.StaleSelectionIgnored | extensions/cart-transformer/src/cart_transform_run.js:40 | a selection under a key that no block or nested item uses never changes the price |
| CartPricing.FalsySelectionIsNoSelection | extensions/cart-transformer/src/cart_transform_run.js:43 | a falsy selection (`null`, `false`, 0, "", NaN) prices exactly like a missing one |
| CartPricing.InactiveGroupsAddNothing | extensions/cart-transformer/src/cart_transform_run.js:54 | groups whose trigger differs from the parent's selection contribute nothing, whatever their items' selections hold |
| CartPricing.ActiveGroupsAllCount | extensions/cart-transformer/src/cart_transform_run.js:53-67 | when every group matches, every group's items contribute, not only the first group's |
| CartPricing.NonPositiveWidthPricesZero | extensions/cart-transformer/src/cart_transform_run.js:82-92 | with an enabled area block whose width is not positive, the price is 0 whatever else is selected |
| CartPricing.ZeroWidthPricesZero | extensions/cart-transformer/src/cart_transform_run.js:87-92 | storing `{width: 0}` under the area block's id prices the configuration at 0 |
| CartPricing.PriceIsWidthTimesUnitPrice | extensions/cart-transformer/src/cart_transform_run.js:72-95 | without an enabled area block the price is the new unit price; with a positive width it is width times the new unit price |
| CartPricing.WorkedUnitPriceTimesWidth | extensions/cart-transformer/src/cart_transform_run.js:94 | a config with unit price u and an area of width w > 0 prices at w * u |
| CartPricing.WorkedAddedOption | extensions/cart-transformer/src/cart_transform_run.js:31-32 | an option with an "added" rule of a, plus an area of width w, gives w * (u + a) |
| CartPricing.WorkedMultiplierOption | extensions/cart-transformer/src/cart_transform_run.js:33-34 | an option with a "multiplier" rule m ≠ 0, plus an area of width w, gives w * (u * m) |
| CartPricing.WorkedSummedMultipliers | extensions/cart-transformer/src/cart_transform_run.js:72 | two multiplier options m1 and m2 give u * (m1 + m2): multipliers are summed, not compounded |
| CartPricing.WorkedNoAreaBlock | extensions/cart-transformer/src/cart_transform_run.js:83-85 | without an area block an added option of a gives u + a, with no width scaling |
| CartPricing.WorkedNestedLegacyAdded | extensions/cart-transformer/src/cart_transform_run.js:52-63 | a nested item under the matching "grommet" group whose option has a legacy `added` of a adds a |
| CartPricing.WorkedGarbageWidth | extensions/cart-transformer/src/cart_transform_run.js:14-17 | a width "not-a-number" falls back to 0, so the configuration prices at 0 |
| CartTransform.FindAttribute | extensions/cart-transformer/src/cart_transform_run.js:109-110 | the first attribute with the key; none exactly when no attribute has it |
| CartTransform.CentsToUnits | extensions/cart-transformer/src/cart_transform_run.js:125 | a number is divided by 100; NaN and infinities pass through |
| CartTransform.LineOperation | extensions/cart-transformer/src/cart_transform_run.js:109-172 | a line yields an operation exactly when both attributes exist, both parse and the computed price is positive |
| CartTransform.LineOperationOf | extensions/cart-transformer/src/cart_transform_run.js:109-172 | one turn of the line loop builds exactly the line's operation, or none |
| CartTransform.LineOperations | extensions/cart-transformer/src/cart_transform_run.js:104-177 | the `forEach` collects the operations of the lines, in line order |
| CartTransform.Run | extensions/cart-transformer/src/cart_transform_run.js:100-187 | the operations are those of the lines, in line order; `NO_CHANGES` when there are none |
| CartTransform.OperationsAppend | extensions/cart-transformer/src/cart_transform_run.js:106 | the operations of two batches of lines are each batch's operations, concatenated |
| CartTransform.OperationsWellFormed | extensions/cart-transformer/src/cart_transform_run.js:130-170 | at most one operation per line; each expands a cart line into one item of the same merchandise and quantity, at the positive price it also records |
| CartTransform.NoChangesIff | extensions/cart-transformer/src/cart_transform_run.js:182-186 | the result is `NO_CHANGES` exactly when no line qualifies |
| CartTransform.OperationEchoesAttributes | extensions/cart-transformer/src/cart_transform_run.js:131-166 | an operation copies the config and selections attributes verbatim and charges the computed price |
| CartTransform.ZeroWidthLineUnchanged | extensions/cart-transformer/src/cart_transform_run.js:130 | a line whose configuration has an enabled area block with a non-positive width gets no operation |
| PreviewPricing.ApplyPricing | app/utils/pricing.js:43-62 | "added" goes to the order or the unit addition by scope (unit by default); a multiplier m adds P0·m to the order addition for scope "order", otherwise multiplies the compound factor by 1 + m for combine "compound" and adds m to the linear sum for any other combine; it never touches the unit addition; other modes change nothing |
| PreviewPricing.ApplyPricingCommutes | app/utils/pricing.js:43-62 | two rules applied in either order give the same accumulators |
| PreviewPricing.SelectedEffect | app/utils/pricing.js:70-75 | a selection throws exactly when no option matches it |
| PreviewPricing.AreaFactor | app/utils/pricing.js:119-125 | the area factor is 1 without an enabled area block or without two positive dimensions, and is always positive |
| PreviewPricing.ComputeAreaBase | app/utils/pricing.js:11-18 | 0 unless the block is an enabled area block; 0 without a price rule or with a zero width |
| PreviewPricing.GroupEffectThrows | app/utils/pricing.js:77-88 | a nested group throws exactly when it is active and one of its items holds an unmatched truthy selection |
| PreviewPricing.BlockEffectThrows | app/utils/pricing.js:64-89 | a block throws exactly when it is an enabled picker whose selection, or an active nested item's selection, matches no option |
| PreviewPricing.ThrowsIffUnmatchedSelection | app/utils/pricing.js:64-113 | the preview throws exactly when some enabled picker, or an item of one of its active groups, holds a truthy selection that matches none of its options |
| PreviewPricing.UnmatchedSelectionShowsZero | app/components/UnifiedCustomizerEditor.jsx:879-886 | the editor shows 0 whenever such a selection is present |
| PreviewPricing.BaseOnlyPrice | app/utils/pricing.js:22-35 | with no option contributing, the total is `base_price` without dimensions, `base_price` times the area factor with `base_source` "base", and `computeAreaBase` with `base_source` "area" |
| PreviewPricing.OrderAdditionIsNotScaled | app/utils/pricing.js:58-59 | an order-scope addition of v raises the total by exactly v, whatever the area |
| PreviewPricing.UnitAdditionIsScaledByArea | app/utils/pricing.js:116-128 | a unit-scope addition of v raises the total by v times the area factor |
| PreviewPricing.NumberInputScalesByQuantity | app/utils/pricing.js:90-102 | a number or float input with a rule of k and quantity q applies k * q: an "added" rule adds it per unit or per order, a multiplier adds it to the linear sum, multiplies the compound factor by 1 + k * q, or adds P0 * k * q per order; q = 0 included |
| PreviewPricing.OrderMultiplierIsNotScaled | app/utils/pricing.js:51-53 | an order-scope multiplier m raises the total by exactly P0 * m, whatever the area |
| PreviewPricing.LinearMultiplierAddsToSum | app/utils/pricing.js:55-56 | a unit-scope linear multiplier m raises the total by P0 * m times the compound factor so far, times the area factor |
| PreviewPricing.CompoundMultiplierScalesBasePart | app/utils/pricing.js:55 | a unit-scope compound multiplier m multiplies the P0 part of the unit price by 1 + m and leaves the unit additions unscaled: the total rises by m times that part, times the area factor |
| PreviewPricing.UnitMultiplierOnNeutralBase | app/utils/pricing.js:54-56 | on blocks that contribute nothing, one unit-scope multiplier m, linear or compound, gives P0 * (1 + m) times the area factor |
| PreviewPricing.DisabledBlockIsRemoved | app/utils/pricing.js:65 | a disabled non-config block can be deleted without changing the preview |
| PreviewPricing.ComputeTotalPrice | app/utils/pricing.js:20-130 | the loop returns `PreviewTotal`: 0 for a non-array, a throw where the source throws, else `(P0*(1+mLinear)*mCompound + aUnit) * areaFactor + aOrder` |
| PreviewPricing.ProcessBlock | app/utils/pricing.js:64-113 | one turn of the block loop: pickers, inputs (scaled for number and float), area blocks adding nothing, and other types applying their own rule |
| PreviewPricing.ProcessNestedGroups | app/utils/pricing.js:77-89 | the nested loop threads the accumulators through every group and stops at the first throw |
| PreviewPricing.ProcessGroupItems | app/utils/pricing.js:80-86 | the item loop threads the accumulators through every item and stops at the first throw |
| Metafield.ParseMetafieldValue | app/utils/metafield.js:10-21 | [] for "", "null", text that does not parse and JSON that is not a list; otherwise the parsed list |
| Metafield.SameKeyOthers | app/utils/metafield.js:59 | the filter is non-empty exactly when another field has the same key |
| Metafield.ValidateMetafieldFields | app/utils/metafield.js:42-82 | `{general}` alone for a non-array; otherwise the map holds exactly the expected keys with the expected messages |
| Metafield.ValidateField | app/utils/metafield.js:49-79 | one field's pass adds exactly that field's expected keys and keeps the earlier ones |
| Metafield.ValidateFieldSlots | app/utils/metafield.js:50-67 | the label, key, duplicate-key and missing-options checks add exactly the field's expected field-level keys, with the duplicate message winning over "required" |
| Metafield.ValidateOptions | app/utils/metafield.js:69-76 | the option pass adds exactly the field's option-level keys |
| Metafield.NoErrorsIffAllValid | app/utils/metafield.js:49-78 | the map is empty exactly when every field is labelled, keyed with a unique key, and has non-blank options where its type needs them |
| Metafield.DuplicateKeyFlagsBoth | app/utils/metafield.js:59-62 | two fields sharing a key, missing keys included, both carry the duplicate message, which overrides "required" |
| Metafield.OtherTypesIgnoreOptions | app/utils/metafield.js:65 | fields outside color/header/grommet/size get no options or option-level errors |
| Metafield.GetDefaultOptionsForType | app/utils/metafield.js:109-137 | 6 options for color, 3 for header, grommet and size, [] otherwise |
| Metafield.CreateDefaultField | app/utils/metafield.js:89-102 | an unlabelled, unkeyed, optional field; only "color" starts with options, the first three colours |
| Metafield.DefaultOptionsAreValid | app/utils/metafield.js:110-134 | every default option has a non-blank label and value |
| Metafield.NewFieldNeedsLabelAndKey | app/utils/metafield.js:50-56 | a newly created field is reported under its label and key entries |
| MetafieldEditorState.WithField | app/components/MetafieldEditor.jsx:45-50 | only the named property changes; a type change also sets the type's default options and an empty default value |
| MetafieldEditorState.RetypedFieldHasValidOptions | app/components/MetafieldEditor.jsx:47-50 | after a change to an option-bearing type no options or option errors are expected for that field |
| MetafieldEditorState.NonBlankLabelClearsLabelError | app/components/MetafieldEditor.jsx:45 | a non-blank label removes the reason for that field's label error |
| MetafieldEditorState.MessagesNonEmpty | app/components/MetafieldEditor.jsx:55 | every reported message is non-empty, so `errors[key]` is truthy exactly for present keys |
| MetafieldEditorState.MetafieldEditor.constructor | app/components/MetafieldEditor.jsx:20-26 | the fields are the parsed initial value; no errors and no pending delete |
| MetafieldEditorState.MetafieldEditor.AddField | app/components/MetafieldEditor.jsx:38-41 | a default colour field is appended; nothing else changes |
| MetafieldEditorState.MetafieldEditor.UpdateField | app/components/MetafieldEditor.jsx:43-60 | only `fields[index]` changes, by `WithField`; exactly the `${index}-${field}` error is dropped |
| MetafieldEditorState.MetafieldEditor.RemoveField | app/components/MetafieldEditor.jsx:62-65 | the index is remembered and the confirmation opens |
| MetafieldEditorState.MetafieldEditor.ConfirmDelete | app/components/MetafieldEditor.jsx:67-74 | exactly the remembered field is removed, if any; the confirmation closes and the index clears |
| MetafieldEditorState.MetafieldEditor.AddOption | app/components/MetafieldEditor.jsx:76-83 | an empty option is appended to that field only |
| MetafieldEditorState.MetafieldEditor.UpdateOption | app/components/MetafieldEditor.jsx:85-89 | one property of one option of one field changes |
| MetafieldEditorState.MetafieldEditor.RemoveOption | app/components/MetafieldEditor.jsx:91-95 | exactly one option of that field is removed; the rest keep their order |
| MetafieldEditorState.MetafieldEditor.ValidateFields | app/components/MetafieldEditor.jsx:97-101 | the error map becomes the validator's, and the answer is whether it is empty |
| MetafieldEditorState.MetafieldEditor.HandleSave | app/components/MetafieldEditor.jsx:103-107 | the fields reach `onSave` exactly when every field is valid; the error map becomes the validator's report; the fields and the pending delete are kept |
| OptionLists.ParseInitial | app/components/ColorOptionsEditor.jsx:12-23 | a list passes through; a string that parses to a list gives that list; anything else gives [] |
| ColorOptions.HexPatternShape | app/components/ColorOptionsEditor.jsx:48 | the hex pattern accepts exactly `#` followed by 3 or 6 hex digits |
| ColorOptions.ColorExpected | app/components/ColorOptionsEditor.jsx:46-50 | errors only under `${idx}-value`, `-hex` or `-price` of existing options, with non-empty messages |
| ColorOptions.ValidateColorOptions | app/components/ColorOptionsEditor.jsx:45-50 | the loop reports exactly the expected keys and messages |
| ColorOptions.ColorNoErrorsIffAllValid | app/components/ColorOptionsEditor.jsx:44-53 | validation passes exactly when every option has a non-blank label, a valid hex and a numeric price |
| ColorOptions.NewOptionNeedsOnlyLabel | app/components/ColorOptionsEditor.jsx:29-31 | a new option fails only for its label: `#000000` and the price 0 pass |
| ColorOptions.ColorOptionsEditor.constructor | app/components/ColorOptionsEditor.jsx:25-27 | the options are `parseInitial(initialValue)` and there are no errors |
| ColorOptions.ColorOptionsEditor.AddOption | app/components/ColorOptionsEditor.jsx:29-31 | `{value:"", hex:"#000000", price:0}` is appended; nothing else changes |
| ColorOptions.ColorOptionsEditor.UpdateOption | app/components/ColorOptionsEditor.jsx:33-37 | one property of one option changes |
| ColorOptions.ColorOptionsEditor.RemoveOption | app/components/ColorOptionsEditor.jsx:39-42 | exactly index i is removed and the order is kept |
| ColorOptions.ColorOptionsEditor.Validate | app/components/ColorOptionsEditor.jsx:44-53 | the error map becomes the reported one, and the answer is whether it is empty |
| ColorOptions.ColorOptionsEditor.HandleSave | app/components/ColorOptionsEditor.jsx:55-59 | the options reach `onSave` exactly when every option is valid; the error map becomes the validator's report; the options are kept |
| HeaderOptions.HeaderExpected | app/components/HeaderOptionsEditor.jsx:45-48 | errors only under `${idx}-value` or `-price` of existing options, with non-empty messages |
| HeaderOptions.ValidateHeaderOptions | app/components/HeaderOptionsEditor.jsx:44-48 | the loop reports exactly the expected keys and messages |
| HeaderOptions.HeaderNoErrorsIffAllValid | app/components/HeaderOptionsEditor.jsx:43-51 | validation passes exactly when every option has a non-blank value and a numeric price |
| HeaderOptions.NewOptionNeedsOnlyType | app/components/HeaderOptionsEditor.jsx:28-30 | a new option fails only for its header type: the price 0 passes, so the option as added is not valid |
| HeaderOptions.ImageUrlIsNotValidated | app/components/HeaderOptionsEditor.jsx:45-48 | changing an option's `image_url` never changes what is reported |
| HeaderOptions.HeaderOptionsEditor.constructor | app/components/HeaderOptionsEditor.jsx:24-26 | the options are `parseInitial(initialValue)` and there are no errors |
| HeaderOptions.HeaderOptionsEditor.AddOption | app/components/HeaderOptionsEditor.jsx:28-30 | `{value:"", price:0, image_url:""}` is appended; nothing else changes |
| HeaderOptions.HeaderOptionsEditor.UpdateOption | app/components/HeaderOptionsEditor.jsx:32-36 | one property of one option changes |
| HeaderOptions.HeaderOptionsEditor.RemoveOption | app/components/HeaderOptionsEditor.jsx:38-41 | exactly index i is removed and the order is kept |
| HeaderOptions.HeaderOptionsEditor.Validate | app/components/HeaderOptionsEditor.jsx:43-51 | the error map becomes the reported one, and the answer is whether it is empty |
| HeaderOptions.HeaderOptionsEditor.HandleSave | app/components/HeaderOptionsEditor.jsx:53-57 | the options reach `onSave` exactly when every option is valid; the error map becomes the validator's report; the options are kept |
| Shop.FindOptionsNode | app/routes/app.products.jsx:241 | the first node keyed "options"; none exactly when no node has that key |
| Shop.LastSegment | app/routes/app.bulk-editor.jsx:454 | `split("/").pop()` is the suffix after the last slash and holds no slash |
| Shop.LastSegmentAfterSlash | app/routes/app.bulk-editor.jsx:454 | whatever precedes the last slash, the slash-free text after it is returned whole |
| Shop.LastSegmentOfGid | app/routes/app.bulk-editor.jsx:459 | a product gid `gid://shopify/Product/<n>` yields `<n>` |
| ProductsRoute.FilterKeepsOrder | app/routes/app.products.jsx:139-143 | the filtered list is a subsequence of the products, in their order |
| ProductsRoute.FilterMembership | app/routes/app.products.jsx:140-142 | a product is listed exactly when its lower-cased title contains the lower-cased term and, with the tag filter on, its tags include `product-customizer` |
| ProductsRoute.EmptySearchListsAll | app/routes/app.products.jsx:139-143 | an empty search with the tag filter off lists every product |
| ProductsRoute.InitialValue | app/routes/app.products.jsx:239-243 | the initial value is never empty; "[]" without the connection or without an `options` metafield |
| ProductsRoute.InitialValueFromFirstOptions | app/routes/app.products.jsx:240-242 | the value of the first `options` metafield wins when it is non-empty |
| Slug.KeepSlugChars | app/components/UnifiedCustomizerEditor.jsx:46 | only `[a-z0-9-]` survive, and a string of such characters is kept whole |
| Slug.Slugify | app/components/UnifiedCustomizerEditor.jsx:40-47 | the slug holds only `[a-z0-9-]` |
| Slug.SlugFixedPoint | app/components/UnifiedCustomizerEditor.jsx:40-47 | a string of slug characters is its own slug |
| Slug.SlugifyIdempotent | app/components/UnifiedCustomizerEditor.jsx:40-47 | slugifying twice equals slugifying once |
| Slug.OptionValueIsSlug | app/components/UnifiedCustomizerEditor.jsx:178 | the generated `option-<n>` values are already slugs |
| Blocks.Merge | app/components/UnifiedCustomizerEditor.jsx:132 | the spread takes each of the thirteen typed keys from the patch when present and from the block otherwise; the other keys are the union, with the patch's winning |
| Blocks.MergeKeepsExtraUntyped | app/components/UnifiedCustomizerEditor.jsx:132 | a block and a patch whose other keys include no typed key merge into such a block |
| Blocks.MergeIdempotent | app/components/UnifiedCustomizerEditor.jsx:132 | spreading a patch twice is spreading it once; an empty patch changes nothing |
| CustomizerEditor.ParseInitial | app/components/UnifiedCustomizerEditor.jsx:14-24 | a list passes through; "" gives []; a string parsing to a list gives it; anything else gives the default structure |
| CustomizerEditor.DefaultHasConfigFirst | app/components/UnifiedCustomizerEditor.jsx:26-38 | the default structure's config block is first, enabled, with base price 0 |
| CustomizerEditor.CreateDefaultBlock | app/components/UnifiedCustomizerEditor.jsx:49-97 | each type's defaults: the picker with one option "a", the text input, the area at 100 per m², and a bare block of any other type; the id is `<type>-<suffix>` |
| CustomizerEditor.UpdateConfigTargetsConfig | app/components/UnifiedCustomizerEditor.jsx:108-116 | the patch lands on the existing config block with every other block unchanged, or on a new default config put in front |
| CustomizerEditor.UpdateConfigIdempotent | app/components/UnifiedCustomizerEditor.jsx:108-116 | applying the same config patch twice is applying it once |
| CustomizerEditor.AddBlock | app/components/UnifiedCustomizerEditor.jsx:118-122 | a default block is appended; the old blocks and the config index are kept |
| CustomizerEditor.RemoveBlockKeepsConfig | app/components/UnifiedCustomizerEditor.jsx:124-128 | the config index leaves the list unchanged; any other index removes exactly that block and keeps the others' order; the config block found is the same |
| CustomizerEditor.UpdateBlock | app/components/UnifiedCustomizerEditor.jsx:130-134 | only the indexed block changes, by the spread |
| CustomizerEditor.ToggleCollapse | app/components/UnifiedCustomizerEditor.jsx:136-140 | membership of exactly one id flips |
| CustomizerEditor.ToggleTwiceRestores | app/components/UnifiedCustomizerEditor.jsx:136-140 | toggling the same id twice restores the set |
| CustomizerEditor.MoveBlockPermutes | app/components/UnifiedCustomizerEditor.jsx:142-149 | the result is a permutation; an allowed move puts the block at `toIdx`; a move touching the config index or leaving the list changes nothing |
| CustomizerEditor.MoveAdjacentSwaps | app/components/UnifiedCustomizerEditor.jsx:142-149 | an allowed move by one position swaps the two neighbours |
| CustomizerEditor.MoveAdjacentUndone | app/components/UnifiedCustomizerEditor.jsx:142-149 | moving a block one step and back restores the list |
| CustomizerEditor.SwapKeepsConfigIndex | app/components/UnifiedCustomizerEditor.jsx:142-149 | swapping two neighbours, neither of them the config block, keeps the config index |
| CustomizerEditor.UpdatePickerOptionIsLocal | app/components/UnifiedCustomizerEditor.jsx:168-173 | only the addressed option of the addressed block changes, by the patch |
| CustomizerEditor.AddPickerOptionAppends | app/components/UnifiedCustomizerEditor.jsx:175-180 | an option valued `option-<n+1>` is appended to the addressed block only |
| CustomizerEditor.RemovePickerOptionIsLocal | app/components/UnifiedCustomizerEditor.jsx:182-186 | only the addressed option goes; the rest keep their order |
| CustomizerEditor.AddNestedGroupAppends | app/components/UnifiedCustomizerEditor.jsx:196-202 | a group conditioned on the block with an empty trigger is appended; it is inactive for every selection |
| CustomizerEditor.UpdateNestedGroupIsLocal | app/components/UnifiedCustomizerEditor.jsx:204-209 | only the addressed group of the addressed block changes, by the patch |
| CustomizerEditor.WithItemsIsLocal | app/components/UnifiedCustomizerEditor.jsx:211-218 | the item edits, `addNestedItemPicker` among them, change only the items of the addressed group of the addressed block |
| CustomizerEditor.UpdateNestedItemIsLocal | app/components/UnifiedCustomizerEditor.jsx:220-227 | only the addressed item changes, by the patch; its siblings are kept |
| CustomizerEditor.RemoveNestedItemIsLocal | app/components/UnifiedCustomizerEditor.jsx:229-235 | only the addressed item goes; the group's other items keep their order |
| CustomizerEditor.CopyCandidateInjective | app/components/UnifiedCustomizerEditor.jsx:156-160 | distinct attempt numbers give distinct candidate ids |
| CustomizerEditor.FreshCopyId | app/components/UnifiedCustomizerEditor.jsx:156-161 | the loop ends on the first candidate in `-copy`, `-copy-2`, ... order that no block has |
| CustomizerEditor.DuplicateBlock | app/components/UnifiedCustomizerEditor.jsx:151-166 | nothing happens for the config index; otherwise the copy is inserted at `index+1` under the first free copy id and every other block keeps its place |
| CustomizerEditor.DuplicateIdIsNew | app/components/UnifiedCustomizerEditor.jsx:157-162 | the copy's id, the first free `-copy` candidate, is never empty and differs from its source's id, whether that id is truthy, empty or missing |
| BulkEditor.StepOrderMembership | app/routes/app.bulk-editor.jsx:118-120 | the step order lists exactly the truthy ids of the non-config blocks |
| BulkEditor.StepOrderAppend | app/routes/app.bulk-editor.jsx:118-120 | the step order of a concatenation is the concatenation of the step orders |
| BulkEditor.StepOrderIgnoresConfig | app/routes/app.bulk-editor.jsx:118-122 | replacing a config block by a config block leaves the step order unchanged |
| BulkEditor.AddBlockRefusesTakenId | app/routes/app.bulk-editor.jsx:105-111 | the block is refused with "Block with same ID already exists" exactly when some block has its id |
| BulkEditor.AddBlockAppends | app/routes/app.bulk-editor.jsx:113-123 | the block is appended and every other block is unchanged, except that the first config block's `step_order` becomes the steps of the saved list, which are the old steps plus the new id |
| BulkEditor.GeneralSettingsTouchesConfigOnly | app/routes/app.bulk-editor.jsx:212-221 | "Config block not found" exactly when there is no config block; otherwise only the first config block changes, by the updates |
| BulkEditor.BlockUpdateTouchesFirstMatch | app/routes/app.bulk-editor.jsx:310-319 | "Block not found" exactly when no block has the id; otherwise only the first block with it changes, by the updates |
| BulkEditor.RunBulkAction | app/routes/app.bulk-editor.jsx:66-172 | the loop records each product's result, or stops at the first throw; it answers the tallies, or `{success: false}` after a throw; the writes sent either way are those of `Run` |
| BulkEditor.RunResultsFollowIds | app/routes/app.bulk-editor.jsx:69-74 | a completed action has one result per product id, in order; exactly the source product is skipped, and a skipped result counts as a success |
| BulkEditor.SourceNeverWritten | app/routes/app.bulk-editor.jsx:71-74 | bulkAddBlock never writes the source product |
| BulkEditor.DuplicateIdNotWritten | app/routes/app.bulk-editor.jsx:105-111 | a product already holding the id records the duplicate failure and is not written |
| BulkEditor.AddBlockTalliesAddUp | app/routes/app.bulk-editor.jsx:160-162 | updated, skipped and failed add up to the number of results when skipped implies success |
| BulkEditor.CompletedAddBlockAccountsForAll | app/routes/app.bulk-editor.jsx:160-162 | a completed bulkAddBlock counts every product exactly once |
| BlockCatalog.AllBlocks | app/routes/app.bulk-editor.jsx:434-469 | the memo's loops compute `Catalog`, the fold of every listed block occurrence into the map |
| BlockCatalog.AddProduct | app/routes/app.bulk-editor.jsx:438-464 | one product adds the occurrences of its readable configuration |
| BlockCatalog.AddBlocks | app/routes/app.bulk-editor.jsx:446-462 | one configuration feeds its non-config blocks with a truthy id, in order |
| BlockCatalog.CatalogSummarises | app/routes/app.bulk-editor.jsx:446-462 | each id appears once; `count` is the number of products listed; the products are those holding the id, in order; type and title are the first occurrence's; every occurrence has an entry |
| BlockCatalog.CatalogInFirstSeenOrder | app/routes/app.bulk-editor.jsx:468 | the entries come in the order their ids are first met |
| BlockCatalog.UnreadableProductSkipped | app/routes/app.bulk-editor.jsx:442-464 | a product without the metafield, or with a value that is null, does not parse or is not a list, leaves the catalogue unchanged |

## Left out

- Network and UI: the GraphQL queries and mutations, `authenticate.admin`, Remix loaders,
  actions and fetchers, and all Polaris/React rendering, toasts and modals are left out.
  The bulk editor's reads and writes are the parameters `Fetch` and `Save`. A throw from
  them is `None`, and only the first ten metafields are ever returned.
- `JSON.parse`, `JSON.stringify` and `parseFloat` are parameters, and their results are
  taken as given. `toFixed(2)` is not modelled: `CartTransform.Fixed2` keeps the number.
  The console logging is not modelled.
- Floating point: numbers are reals. IEEE rounding, overflow and the `NaN`/`Infinity`
  results of arithmetic are not modelled. A price computed as NaN (`(t || 0)` in the
  editor's display) cannot arise.
- `toLowerCase` folds only `A`-`Z` here (`Js.Lower`). Unicode case folding in `slugify` and
  in the products filter is not modelled. `trim` and `\s` use the ECMAScript white-space
  set, byte-order mark included (`Js.IsSpace`).
- The random suffix of `createDefaultBlock` is a parameter.
- In-place updates are modelled by value, so aliasing is not captured. The colour, header
  and metafield editors' `updateOption` mutates option objects in place. The
  MetafieldEditor's `addOption` (which may also create the field's `options` array) pushes
  onto a field's options array in place. Its `removeOption` splices that array in place. A
  field or option object shared elsewhere would change there too. The model replaces the
  field or option by value.
- Ordering between the MetafieldEditor's error map and its fields after a delete: the
  source does not re-index the errors, and neither does the model.
- A block whose `nested` holds a number, a boolean or an object makes the nested edits
  throw. A string `nested` is spread into its characters, which then sit beside the
  groups. The model reads any non-array value as missing (`Blocks.Block.nested` is None),
  so a new group lands in an otherwise empty list.
- Blocks.Merge: a block or patch whose `extra` holds a typed key name such as "title" is
  not excluded. Merging such a patch writes that key into `extra` and leaves the typed
  field alone, where `{ ...b, ...p }` would overwrite the property. Operations keep `Blocks.ExtraIsUntyped` when their inputs have it
  (`Blocks.MergeKeepsExtraUntyped`), but inputs are not required to have it.
- `step_order`: a missing key and `[]` are both the empty sequence.
- A patch (`Blocks.BlockPatch`) can set keys to values but cannot delete them. `{ pricing:
  null }` and `{ id: undefined }` patches are not modelled.
- Stored values of unexpected shapes are not modelled:
  - a `null` element inside a configuration, which makes `b.type` throw in the loops;
  - a non-string option label, value or hex;
  - object identity: `===` between two parsed objects is modelled as false.
- The bulk editor's form inputs (`productIds`, `blockToAdd`, `updates`) are taken as
  already decoded. A throw while decoding them, its message text, and the
  `{ error: "Invalid action" }` answer for an unknown action are not modelled.
- BulkEditor.RunBulkAction: on a throw it answers `Failed` without the exception's
  message.
- BlockCatalog.AllBlocks: requires every product to carry its metafield connection. The
  page's query always asks for it, and the source reads it without a guard.
- `app/components/SizeMultiplierEditor.jsx` (a `parseFloat` wrapper with a 1.0 fallback),
  `app/db.server.js` (Prisma client) and `app/routes/app.jsx` (navigation shell) are not
  part of this model.
