/** The bulk editor's server action: for each selected product, read its `options` metafield,
    transform the configuration it holds, and write it back, collecting one result per
    product. The three actions (add a block, update the general settings, update one block)
    differ only in the transform and in skipping the product the added block was copied from.
    Reading and writing metafields and parsing JSON are given as functions. */
module BulkEditor {
  import opened Js
  import opened Blocks
  import opened Shop

  /** `config.filter(b => b.type !== "config" && b.id).map(b => b.id)`. */
  function StepOrder(blocks: seq<Block>): (r: seq<string>)
    ensures |r| <= |blocks|
  {
    if blocks == [] then []
    else StepOrder(blocks[..|blocks| - 1]) + StepOf(blocks[|blocks| - 1])
  }

  function StepOf(b: Block): seq<string> {
    if !IsConfig(b) && HasTruthyId(b) then [b.id.value] else []
  }

  lemma {:induction false} StepOrderAppend(a: seq<Block>, c: seq<Block>)
    ensures StepOrder(a + c) == StepOrder(a) + StepOrder(c)
    decreases |c|
  {
    if c == [] {
      assert a + c == a;
    } else {
      assert (a + c)[..|a + c| - 1] == a + c[..|c| - 1];
      StepOrderAppend(a, c[..|c| - 1]);
    }
  }

  /** The step order lists exactly the truthy ids of the non-config blocks. */
  lemma {:induction false} StepOrderMembership(blocks: seq<Block>, x: string)
    ensures x in StepOrder(blocks) <==>
              exists i :: 0 <= i < |blocks| && !IsConfig(blocks[i]) && HasTruthyId(blocks[i]) && blocks[i].id.value == x
  {
    if blocks != [] {
      var n := |blocks| - 1;
      StepOrderMembership(blocks[..n], x);
      assert forall i :: 0 <= i < n ==> blocks[..n][i] == blocks[i];
    }
  }

  /** Replacing a config block by another config block leaves the step order as it was. */
  lemma {:induction false} StepOrderIgnoresConfig(blocks: seq<Block>, c: nat, nb: Block)
    requires c < |blocks| && IsConfig(blocks[c]) && IsConfig(nb)
    ensures StepOrder(blocks[c := nb]) == StepOrder(blocks)
  {
    var s := blocks[c := nb];
    assert blocks == blocks[..c] + [blocks[c]] + blocks[c + 1..];
    assert s == blocks[..c] + [nb] + blocks[c + 1..];
    StepOrderAppend(blocks[..c] + [blocks[c]], blocks[c + 1..]);
    StepOrderAppend(blocks[..c] + [nb], blocks[c + 1..]);
    StepOrderAppend(blocks[..c], [blocks[c]]);
    StepOrderAppend(blocks[..c], [nb]);
    assert StepOrder([nb]) == [] == StepOrder([blocks[c]]) by {
      assert [nb][..0] == [] && [blocks[c]][..0] == [];
    }
  }

  /** The outcome of transforming one product's configuration. */
  datatype Transformed = Updated(config: seq<Block>) | Rejected(error: string)

  const DuplicateId := "Block with same ID already exists"
  const NoConfigBlock := "Config block not found"
  const BlockNotFound := "Block not found"
  const NoCustomizerConfig := "No customizer config found"

  /** bulkAddBlock on one configuration: refuse when a block already carries the new block's
      id (two missing ids count as the same); otherwise append the block and set the first
      config block's `step_order` to the step ids of the extended list. */
  function AddBlockTransform(config: seq<Block>, block: Block): (r: Transformed)
  {
    if FindIndex(config, (b: Block) => b.id == block.id) != -1 then Rejected(DuplicateId)
    else
      var appended := config + [block];
      var c := ConfigIndex(appended);
      if c >= 0 then Updated(appended[c := appended[c].(stepOrder := StepOrder(appended))])
      else Updated(appended)
  }

  /** The block is refused exactly when some block of the configuration already has its id. */
  lemma AddBlockRefusesTakenId(config: seq<Block>, block: Block)
    ensures AddBlockTransform(config, block).Rejected? <==> exists i :: 0 <= i < |config| && config[i].id == block.id
    ensures AddBlockTransform(config, block).Rejected? ==> AddBlockTransform(config, block).error == DuplicateId
  {
    var p: Block -> bool := (b: Block) => b.id == block.id;
    if exists i :: 0 <= i < |config| && config[i].id == block.id {
      var i :| 0 <= i < |config| && config[i].id == block.id;
      assert p(config[i]);
    }
  }

  /** On success the block is appended, every block keeps its place and contents, and the
      only other change is the config block's `step_order`, which then lists exactly the
      steps of the saved configuration: the old steps followed by the new block's id when it
      is a step. */
  lemma AddBlockAppends(config: seq<Block>, block: Block)
    requires AddBlockTransform(config, block).Updated?
    ensures var r := AddBlockTransform(config, block).config;
            var appended := config + [block];
            var c := ConfigIndex(appended);
            && |r| == |config| + 1
            && (forall i :: 0 <= i < |r| && i != c ==> r[i] == appended[i])
            && (c >= 0 ==> r[c] == appended[c].(stepOrder := StepOrder(r)) && ConfigIndex(r) == c)
            && StepOrder(r) == StepOrder(config) + StepOf(block)
  {
    var appended := config + [block];
    var c := ConfigIndex(appended);
    assert appended[..|appended| - 1] == config;
    assert StepOrder(appended) == StepOrder(config) + StepOf(block);
    if c >= 0 {
      StepOrderStamped(appended, c);
    }
  }

  /** Writing the step order into the first config block changes neither the step order nor
      where the first config block is. */
  lemma StepOrderStamped(blocks: seq<Block>, c: nat)
    requires c < |blocks| && ConfigIndex(blocks) == c
    ensures var r := blocks[c := blocks[c].(stepOrder := StepOrder(blocks))];
            StepOrder(r) == StepOrder(blocks) && ConfigIndex(r) == c
  {
    var r := blocks[c := blocks[c].(stepOrder := StepOrder(blocks))];
    StepOrderIgnoresConfig(blocks, c, r[c]);
    assert forall j :: 0 <= j < c ==> r[j] == blocks[j];
    ConfigIndexAt(r, c);
  }

  /** bulkUpdateGeneralSettings on one configuration: spread the updates over the first config
      block, or refuse when there is none. */
  function GeneralSettingsTransform(config: seq<Block>, updates: BlockPatch): (r: Transformed)
  {
    var c := ConfigIndex(config);
    if c == -1 then Rejected(NoConfigBlock) else Updated(config[c := Merge(config[c], updates)])
  }

  /** Refused exactly when there is no config block; otherwise only the first config block
      changes, by the updates. */
  lemma GeneralSettingsTouchesConfigOnly(config: seq<Block>, updates: BlockPatch)
    ensures var r := GeneralSettingsTransform(config, updates);
            && (r.Rejected? <==> forall i :: 0 <= i < |config| ==> !IsConfig(config[i]))
            && (r.Rejected? ==> r.error == NoConfigBlock)
            && (r.Updated? ==>
                  var c := ConfigIndex(config);
                  && |r.config| == |config| && r.config[c] == Merge(config[c], updates)
                  && forall i :: 0 <= i < |config| && i != c ==> r.config[i] == config[i])
  {
    var c := ConfigIndex(config);
    if forall i :: 0 <= i < |config| ==> !IsConfig(config[i]) {
      ConfigIndexNone(config);
    }
  }

  /** bulkUpdate on one configuration: spread the updates over the first block with the given
      id, or report that there is none. */
  function BlockUpdateTransform(config: seq<Block>, blockId: string, updates: BlockPatch): (r: Transformed)
  {
    var i := FindIndex(config, (b: Block) => b.id == Some(blockId));
    if i == -1 then Rejected(BlockNotFound) else Updated(config[i := Merge(config[i], updates)])
  }

  /** "Block not found" exactly when no block has the id; otherwise only the first block with
      that id changes, by the updates. */
  lemma BlockUpdateTouchesFirstMatch(config: seq<Block>, blockId: string, updates: BlockPatch)
    ensures var r := BlockUpdateTransform(config, blockId, updates);
            && (r.Rejected? <==> forall i :: 0 <= i < |config| ==> config[i].id != Some(blockId))
            && (r.Rejected? ==> r.error == BlockNotFound)
            && (r.Updated? ==>
                  exists k :: (0 <= k < |config| && config[k].id == Some(blockId)
                    && (forall j :: 0 <= j < k ==> config[j].id != Some(blockId))
                    && |r.config| == |config| && r.config[k] == Merge(config[k], updates)
                    && forall i :: 0 <= i < |config| && i != k ==> r.config[i] == config[i]))
  {
    var p: Block -> bool := (b: Block) => b.id == Some(blockId);
    var k := FindIndex(config, p);
    if k == -1 {
      assert forall i :: 0 <= i < |config| ==> !p(config[i]);
    } else {
      assert p(config[k]);
      assert forall j :: 0 <= j < k ==> !p(config[j]);
    }
  }

  /** The three bulk actions and their form inputs. */
  datatype BulkAction =
    | AddBlockAction(blockToAdd: Block, sourceProductId: string)
    | GeneralSettingsAction(generalUpdates: BlockPatch)
    | BlockUpdateAction(blockId: string, updates: BlockPatch)

  function Transform(action: BulkAction, config: seq<Block>): Transformed {
    match action
    case AddBlockAction(block, _) => AddBlockTransform(config, block)
    case GeneralSettingsAction(updates) => GeneralSettingsTransform(config, updates)
    case BlockUpdateAction(id, updates) => BlockUpdateTransform(config, id, updates)
  }

  /** `{ productId, success, skipped?, error? }`. */
  datatype ProductResult = ProductResult(productId: string, success: bool, skipped: bool, error: Option<string>)

  /** A `metafieldsSet` mutation sent for a product. */
  datatype Write = Write(productId: string, config: seq<Block>)

  /** The metafields query for a product: its nodes, or None when the call or reading its
      answer throws. */
  type Fetch = string -> Option<seq<MetafieldNode>>

  /** The `metafieldsSet` mutation: the messages of its `userErrors`, or None when it throws. */
  type Save = (string, seq<Block>) -> Option<seq<string>>

  /** What handling one product does: record a result, or throw out of the whole action;
      either way after sending the listed mutations. */
  datatype Step = Recorded(result: ProductResult, sent: seq<Write>) | Thrown(sent: seq<Write>)

  function Failure(productId: string, error: string): ProductResult {
    ProductResult(productId, false, false, Some(error))
  }

  /** The body of the `for (const productId of productIds)` loop. A stored value that is
      missing, does not parse, or is not a list throws (from `JSON.parse` or from calling
      `findIndex` on a non-array). */
  function ProductStep(action: BulkAction, productId: string, fetch: Fetch, parse: JsonParse<Block>, save: Save): Step {
    if action.AddBlockAction? && productId == action.sourceProductId then
      Recorded(ProductResult(productId, true, true, None), [])
    else
      match fetch(productId)
      case None => Thrown([])
      case Some(nodes) =>
        var found := FindOptionsNode(nodes);
        if found.None? then Recorded(Failure(productId, NoCustomizerConfig), [])
        else
          var value := nodes[found.value].value;
          if value.None? || !parse(value.value).JsonArray? then Thrown([])
          else SaveStep(productId, Transform(action, parse(value.value).items), save)
  }

  /** Send the transformed configuration, or record why it was refused. */
  function SaveStep(productId: string, t: Transformed, save: Save): Step {
    match t
    case Rejected(error) => Recorded(Failure(productId, error), [])
    case Updated(config) =>
      match save(productId, config)
      case None => Thrown([Write(productId, config)])
      case Some(userErrors) =>
        if userErrors == [] then Recorded(ProductResult(productId, true, false, None), [Write(productId, config)])
        else Recorded(Failure(productId, userErrors[0]), [Write(productId, config)])
  }

  /** The results pushed and mutations sent by the first products, and whether the action
      threw on the last of them. */
  datatype RunState = RunState(results: seq<ProductResult>, sent: seq<Write>, threw: bool)

  function Run(action: BulkAction, ids: seq<string>, fetch: Fetch, parse: JsonParse<Block>, save: Save): RunState {
    if ids == [] then RunState([], [], false)
    else
      var s := Run(action, ids[..|ids| - 1], fetch, parse, save);
      if s.threw then s
      else match ProductStep(action, ids[|ids| - 1], fetch, parse, save)
        case Recorded(r, w) => RunState(s.results + [r], s.sent + w, false)
        case Thrown(w) => RunState(s.results, s.sent + w, true)
  }

  lemma {:induction false} RunStaysThrown(action: BulkAction, ids: seq<string>, k: nat, fetch: Fetch, parse: JsonParse<Block>, save: Save)
    requires k <= |ids| && Run(action, ids[..k], fetch, parse, save).threw
    ensures Run(action, ids, fetch, parse, save) == Run(action, ids[..k], fetch, parse, save)
    decreases |ids| - k
  {
    if k < |ids| {
      assert ids[..k + 1][..k] == ids[..k];
      RunStaysThrown(action, ids, k + 1, fetch, parse, save);
    } else {
      assert ids[..k] == ids;
    }
  }

  /** One more product after a prefix that did not throw: its step is recorded, or the run
      throws with the step's writes added. */
  lemma RunPrefixStep(action: BulkAction, ids: seq<string>, k: nat, fetch: Fetch, parse: JsonParse<Block>, save: Save)
    requires k < |ids| && !Run(action, ids[..k], fetch, parse, save).threw
    ensures var s := Run(action, ids[..k], fetch, parse, save);
            var step := ProductStep(action, ids[k], fetch, parse, save);
            Run(action, ids[..k + 1], fetch, parse, save)
              == if step.Thrown? then RunState(s.results, s.sent + step.sent, true)
                 else RunState(s.results + [step.result], s.sent + step.sent, false)
  {
    assert ids[..k + 1][..k] == ids[..k];
  }

  /** The action's answer: the results with their tallies, or `{ success: false }` when it threw. */
  datatype Response =
    | Completed(results: seq<ProductResult>, updated: nat, skipped: nat, failed: nat)
    | Failed

  function CountWhere(results: seq<ProductResult>, p: ProductResult -> bool): (n: nat)
    ensures n <= |results|
  {
    if results == [] then 0
    else CountWhere(results[..|results| - 1], p) + (if p(results[|results| - 1]) then 1 else 0)
  }

  /** The tallies of the answer: bulkAddBlock counts updated (successful, not skipped), skipped
      and failed products; the two update actions count successes and the rest. */
  function Tally(action: BulkAction, results: seq<ProductResult>): Response {
    if action.AddBlockAction? then
      Completed(results, CountWhere(results, (r: ProductResult) => r.success && !r.skipped),
                CountWhere(results, (r: ProductResult) => r.skipped), CountWhere(results, (r: ProductResult) => !r.success))
    else
      var ok := CountWhere(results, (r: ProductResult) => r.success);
      Completed(results, ok, 0, |results| - ok)
  }

  /** The loop of the action. */
  method RunBulkAction(action: BulkAction, productIds: seq<string>, fetch: Fetch, parse: JsonParse<Block>, save: Save)
    returns (response: Response, sent: seq<Write>)
    ensures var s := Run(action, productIds, fetch, parse, save);
            && sent == s.sent
            && (s.threw ==> response == Failed)
            && (!s.threw ==> response == Tally(action, s.results))
  {
    var results: seq<ProductResult> := [];
    sent := [];
    var i := 0;
    while i < |productIds|
      invariant i <= |productIds|
      invariant Run(action, productIds[..i], fetch, parse, save) == RunState(results, sent, false)
    {
      var step := ProductStep(action, productIds[i], fetch, parse, save);
      RunPrefixStep(action, productIds, i, fetch, parse, save);
      sent := sent + step.sent;
      if step.Thrown? {
        RunStaysThrown(action, productIds, i + 1, fetch, parse, save);
        return Failed, sent;
      }
      results := results + [step.result];
      i := i + 1;
    }
    assert productIds[..i] == productIds;
    response := Tally(action, results);
  }

  /** When the action completes there is one result per product id, in order; a result is
      skipped exactly for the source product of bulkAddBlock, and a skipped result is a
      success. */
  lemma {:induction false} RunResultsFollowIds(action: BulkAction, ids: seq<string>, fetch: Fetch, parse: JsonParse<Block>, save: Save)
    ensures var s := Run(action, ids, fetch, parse, save);
            !s.threw ==>
              && |s.results| == |ids|
              && forall i :: 0 <= i < |ids| ==>
                   && s.results[i].productId == ids[i]
                   && (s.results[i].skipped <==> action.AddBlockAction? && ids[i] == action.sourceProductId)
                   && (s.results[i].skipped ==> s.results[i].success)
  {
    if ids != [] {
      RunResultsFollowIds(action, ids[..|ids| - 1], fetch, parse, save);
      var last := ids[|ids| - 1];
      var step := ProductStep(action, last, fetch, parse, save);
      if step.Recorded? {
        SaveStepResult(last, action, fetch, parse, save);
      }
    }
  }

  lemma SaveStepResult(productId: string, action: BulkAction, fetch: Fetch, parse: JsonParse<Block>, save: Save)
    ensures var step := ProductStep(action, productId, fetch, parse, save);
            step.Recorded? ==>
              && step.result.productId == productId
              && (step.result.skipped <==> action.AddBlockAction? && productId == action.sourceProductId)
              && (step.result.skipped ==> step.result.success)
  {
    if !(action.AddBlockAction? && productId == action.sourceProductId) && fetch(productId).Some? {
      var nodes := fetch(productId).value;
      var found := FindOptionsNode(nodes);
      if found.Some? && nodes[found.value].value.Some? {
        var parsed := parse(nodes[found.value].value.value);
        if parsed.JsonArray? {
          SaveStepNeverSkips(productId, Transform(action, parsed.items), save);
        }
      }
    }
  }

  /** Whatever the transform gave, the recorded result names the product and is not a skip. */
  lemma SaveStepNeverSkips(productId: string, t: Transformed, save: Save)
    ensures var step := SaveStep(productId, t, save);
            step.Recorded? ==> step.result.productId == productId && !step.result.skipped
  {
  }

  /** bulkAddBlock never sends a mutation for the product the block was copied from. */
  lemma {:induction false} SourceNeverWritten(block: Block, source: string, ids: seq<string>, fetch: Fetch, parse: JsonParse<Block>, save: Save)
    ensures forall w :: w in Run(AddBlockAction(block, source), ids, fetch, parse, save).sent ==> w.productId != source
  {
    if ids != [] {
      SourceNeverWritten(block, source, ids[..|ids| - 1], fetch, parse, save);
    }
  }

  /** A product whose stored configuration already has a block with the new block's id is
      reported as a duplicate and not written. */
  lemma DuplicateIdNotWritten(block: Block, source: string, productId: string, fetch: Fetch, parse: JsonParse<Block>, save: Save,
                              nodes: seq<MetafieldNode>, j: nat, i: nat)
    requires productId != source && fetch(productId) == Some(nodes)
    requires FindOptionsNode(nodes) == Some(j) && nodes[j].value.Some?
    requires parse(nodes[j].value.value).JsonArray?
    requires var config := parse(nodes[j].value.value).items; i < |config| && config[i].id == block.id
    ensures ProductStep(AddBlockAction(block, source), productId, fetch, parse, save)
            == Recorded(Failure(productId, DuplicateId), [])
  {
    AddBlockRefusesTakenId(parse(nodes[j].value.value).items, block);
  }

  /** With every skipped result a success, bulkAddBlock's three tallies add up to the number
      of results. */
  lemma {:induction false} AddBlockTalliesAddUp(results: seq<ProductResult>)
    requires forall i :: 0 <= i < |results| ==> results[i].skipped ==> results[i].success
    ensures CountWhere(results, (r: ProductResult) => r.success && !r.skipped) + CountWhere(results, (r: ProductResult) => r.skipped)
            + CountWhere(results, (r: ProductResult) => !r.success) == |results|
  {
    if results != [] {
      AddBlockTalliesAddUp(results[..|results| - 1]);
    }
  }

  /** A completed bulkAddBlock reports every product once: as updated, skipped or failed. */
  lemma CompletedAddBlockAccountsForAll(block: Block, source: string, ids: seq<string>, fetch: Fetch, parse: JsonParse<Block>, save: Save)
    requires !Run(AddBlockAction(block, source), ids, fetch, parse, save).threw
    ensures var t := Tally(AddBlockAction(block, source), Run(AddBlockAction(block, source), ids, fetch, parse, save).results);
            t.updated + t.skipped + t.failed == |ids|
  {
    var s := Run(AddBlockAction(block, source), ids, fetch, parse, save);
    RunResultsFollowIds(AddBlockAction(block, source), ids, fetch, parse, save);
    AddBlockTalliesAddUp(s.results);
  }
}
