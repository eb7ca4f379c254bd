/** The cart-transform entry point: for every cart line that carries both customizer
    attributes, decode them, price the configuration, and when the price is positive emit one
    expand operation that charges that price per unit and records the inputs. */
module CartTransform {
  import opened Js
  import opened Blocks
  import opened CartPricing

  datatype Attribute = Attribute(key: string, value: string)

  /** A cart line as the function reads it: `id`, `attributes`, `cost.amountPerQuantity.amount`,
      `merchandise.id` and `quantity`. */
  datatype CartLine = CartLine(
    id: string,
    attributes: seq<Attribute>,
    amountPerQuantity: string,
    merchandiseId: string,
    quantity: int)

  /** A value written into an operation: a string as it is, or `n.toFixed(2)` of a number
      (the two-decimal rendering is not modelled; the number is kept). */
  datatype OutputValue = Text(s: string) | Fixed2(n: NumberValue)

  datatype OutputAttribute = OutputAttribute(key: string, value: OutputValue)

  datatype ExpandedItem = ExpandedItem(merchandiseId: string, quantity: int, fixedPricePerUnit: OutputValue)

  datatype ExpandOperation = ExpandOperation(
    cartLineId: string,
    attributes: seq<OutputAttribute>,
    expandedCartItems: seq<ExpandedItem>)

  /** `{ operations }`; `NO_CHANGES` is the empty list. */
  datatype RunResult = RunResult(operations: seq<ExpandOperation>)

  const NoChanges := RunResult([])

  /** `JSON.parse` of the config attribute, read as a configuration: None when it throws. */
  type ConfigDecoder = string -> Option<ArrayOrNot<Block>>

  /** `JSON.parse` of the selections attribute: None when it throws. */
  type SelectionsDecoder = string -> Option<JsValue>

  /** `selections?.[id]` on a parsed value: an object is read through its properties; null and
      the other non-objects are read as holding nothing. */
  function SelectionsOf(v: JsValue): (s: Selections)
    ensures v.Obj? ==> s == v.props
    ensures !v.Obj? ==> s == map[]
  {
    if v.Obj? then v.props else map[]
  }

  /** `attributes.find((attr) => attr.key === key)`. */
  function FindAttribute(attributes: seq<Attribute>, key: string): (r: Option<Attribute>)
    ensures r.Some? ==> r.value in attributes && r.value.key == key
    ensures r.None? <==> forall i :: 0 <= i < |attributes| ==> attributes[i].key != key
    ensures r.Some? ==> exists i :: 0 <= i < |attributes| && attributes[i] == r.value
                                 && forall j :: 0 <= j < i ==> attributes[j].key != key
  {
    if attributes == [] then None
    else if attributes[0].key == key then Some(attributes[0])
    else
      var r := FindAttribute(attributes[1..], key);
      if r.Some? then
        ghost var i :| 0 <= i < |attributes[1..]| && attributes[1..][i] == r.value
                       && forall j :: 0 <= j < i ==> attributes[1..][j].key != key;
        assert attributes[i + 1] == r.value;
        r
      else r
  }

  /** `parseFloat(amount) / 100`. */
  function CentsToUnits(n: NumberValue): (r: NumberValue)
    ensures n.Num? ==> r == Num(n.r / 100.0)
    ensures !n.Num? ==> r == n
  {
    if n.Num? then Num(n.r / 100.0) else n
  }

  const ConfigKey := "customizer_config"
  const SelectionsKey := "customizer_selections"

  /** The operation for a line priced at `price`. */
  function Expand(line: CartLine, configText: string, selectionsText: string, price: real, pf: ParseFloat): ExpandOperation {
    ExpandOperation(
      line.id,
      [ OutputAttribute("_Customizer-Enabled", Text("true")),
        OutputAttribute("_Customizer-Config", Text(configText)),
        OutputAttribute("_Customizer-Selections", Text(selectionsText)),
        OutputAttribute("_Customizer-Price", Fixed2(Num(price))),
        OutputAttribute("_Original-Price", Fixed2(CentsToUnits(pf(line.amountPerQuantity)))) ],
      [ExpandedItem(line.merchandiseId, line.quantity, Fixed2(Num(price)))])
  }

  /** What one line contributes: nothing when an attribute is missing, when either attribute
      does not parse, or when the price is not positive. */
  function LineOperation(line: CartLine, decodeConfig: ConfigDecoder, decodeSelections: SelectionsDecoder, pf: ParseFloat)
    : (r: Option<ExpandOperation>)
    ensures FindAttribute(line.attributes, ConfigKey).None? ==> r.None?
    ensures FindAttribute(line.attributes, SelectionsKey).None? ==> r.None?
    ensures r.Some? <==>
      && FindAttribute(line.attributes, ConfigKey).Some?
      && FindAttribute(line.attributes, SelectionsKey).Some?
      && decodeConfig(FindAttribute(line.attributes, ConfigKey).value.value).Some?
      && decodeSelections(FindAttribute(line.attributes, SelectionsKey).value.value).Some?
      && TotalPrice(decodeConfig(FindAttribute(line.attributes, ConfigKey).value.value).value,
                    SelectionsOf(decodeSelections(FindAttribute(line.attributes, SelectionsKey).value.value).value), pf) > 0.0
  {
    var configAttribute := FindAttribute(line.attributes, ConfigKey);
    var selectionsAttribute := FindAttribute(line.attributes, SelectionsKey);
    if configAttribute.None? || selectionsAttribute.None? then None
    else
      var config := decodeConfig(configAttribute.value.value);
      var selections := decodeSelections(selectionsAttribute.value.value);
      if config.None? || selections.None? then None
      else
        var price := TotalPrice(config.value, SelectionsOf(selections.value), pf);
        if price > 0.0 then Some(Expand(line, configAttribute.value.value, selectionsAttribute.value.value, price, pf))
        else None
  }

  /** The present results of `f` over a list, in order. */
  function Collect<T, U>(xs: seq<T>, f: T -> Option<U>): (r: seq<U>)
    ensures |r| <= |xs|
  {
    if xs == [] then []
    else
      var y := f(xs[|xs| - 1]);
      Collect(xs[..|xs| - 1], f) + if y.Some? then [y.value] else []
  }

  /** The operations of a list of lines, in line order. */
  function Operations(lines: seq<CartLine>, decodeConfig: ConfigDecoder, decodeSelections: SelectionsDecoder, pf: ParseFloat)
    : seq<ExpandOperation>
  {
    Collect(lines, (line: CartLine) => LineOperation(line, decodeConfig, decodeSelections, pf))
  }

  lemma {:induction false} CollectAppend<T, U>(a: seq<T>, c: seq<T>, f: T -> Option<U>)
    ensures Collect(a + c, f) == Collect(a, f) + Collect(c, f)
  {
    if c != [] {
      var n := |c| - 1;
      assert (a + c)[..|a + c| - 1] == a + c[..n];
      assert (a + c)[|a + c| - 1] == c[n];
      CollectAppend(a, c[..n], f);
    } else {
      assert a + c == a;
    }
  }

  lemma {:induction false} CollectEmptyIff<T, U>(xs: seq<T>, f: T -> Option<U>)
    ensures Collect(xs, f) == [] <==> forall i :: 0 <= i < |xs| ==> f(xs[i]).None?
  {
    if xs != [] {
      var n := |xs| - 1;
      CollectEmptyIff(xs[..n], f);
      assert forall i :: 0 <= i < n ==> xs[..n][i] == xs[i];
    }
  }

  lemma {:induction false} CollectFrom<T, U>(xs: seq<T>, f: T -> Option<U>, u: U)
    requires u in Collect(xs, f)
    ensures exists i :: 0 <= i < |xs| && f(xs[i]) == Some(u)
  {
    var n := |xs| - 1;
    var y := f(xs[n]);
    if u in Collect(xs[..n], f) {
      CollectFrom(xs[..n], f, u);
      var i :| 0 <= i < n && f(xs[..n][i]) == Some(u);
      assert xs[..n][i] == xs[i];
    } else {
      assert y == Some(u);
    }
  }

  /** `cartTransformRun(input)`: each line in turn, the engine run by `ComputeTotalPrice`. */
  method Run(lines: seq<CartLine>, decodeConfig: ConfigDecoder, decodeSelections: SelectionsDecoder, pf: ParseFloat)
    returns (result: RunResult)
    ensures result.operations == Operations(lines, decodeConfig, decodeSelections, pf)
  {
    var operations := LineOperations(lines, decodeConfig, decodeSelections, pf);
    if |operations| == 0 {
      return NoChanges;
    }
    return RunResult(operations);
  }

  /** The loop over `input.cart.lines`, collecting the operations in line order. */
  method LineOperations(lines: seq<CartLine>, decodeConfig: ConfigDecoder, decodeSelections: SelectionsDecoder, pf: ParseFloat)
    returns (operations: seq<ExpandOperation>)
    ensures operations == Operations(lines, decodeConfig, decodeSelections, pf)
  {
    operations := [];
    var index := 0;
    while index < |lines|
      invariant 0 <= index <= |lines|
      invariant operations == Operations(lines[..index], decodeConfig, decodeSelections, pf)
    {
      var op := LineOperationOf(lines[index], decodeConfig, decodeSelections, pf);
      OperationsPrefixStep(lines, index, decodeConfig, decodeSelections, pf);
      if op.Some? {
        operations := operations + [op.value];
      }
      index := index + 1;
    }
    assert lines[..index] == lines;
  }

  /** Extending the prefix by one line adds that line's operation, if it has one. */
  lemma OperationsPrefixStep(lines: seq<CartLine>, k: nat, dc: ConfigDecoder, ds: SelectionsDecoder, pf: ParseFloat)
    requires k < |lines|
    ensures var op := LineOperation(lines[k], dc, ds, pf);
            Operations(lines[..k + 1], dc, ds, pf) == Operations(lines[..k], dc, ds, pf) + if op.Some? then [op.value] else []
  {
    assert lines[..k + 1][..k] == lines[..k];
    assert lines[..k + 1][k] == lines[k];
  }

  /** The body of the line loop: read both attributes, decode them, run the engine and
      build the operation when the price is positive. */
  method LineOperationOf(line: CartLine, decodeConfig: ConfigDecoder, decodeSelections: SelectionsDecoder, pf: ParseFloat)
    returns (op: Option<ExpandOperation>)
    ensures op == LineOperation(line, decodeConfig, decodeSelections, pf)
  {
    op := None;
    var configAttribute := FindAttribute(line.attributes, ConfigKey);
    var selectionsAttribute := FindAttribute(line.attributes, SelectionsKey);
    if configAttribute.Some? && selectionsAttribute.Some? {
      var config := decodeConfig(configAttribute.value.value);
      var selections := decodeSelections(selectionsAttribute.value.value);
      if config.Some? && selections.Some? {
        var customizerPrice := ComputeTotalPrice(config.value, SelectionsOf(selections.value), pf);
        if customizerPrice > 0.0 {
          op := Some(Expand(line, configAttribute.value.value, selectionsAttribute.value.value, customizerPrice, pf));
        }
      }
    }
  }

  // ---------------------------------------------------------------------------------------
  // Properties

  /** The operations of two batches of lines are the operations of each, in order. */
  lemma OperationsAppend(a: seq<CartLine>, c: seq<CartLine>, dc: ConfigDecoder, ds: SelectionsDecoder, pf: ParseFloat)
    ensures Operations(a + c, dc, ds, pf) == Operations(a, dc, ds, pf) + Operations(c, dc, ds, pf)
  {
    CollectAppend(a, c, (line: CartLine) => LineOperation(line, dc, ds, pf));
  }

  /** At most one operation per line; every operation expands a line of the cart into one item
      of the same merchandise and quantity, charged the positive price it also records. */
  lemma OperationsWellFormed(lines: seq<CartLine>, dc: ConfigDecoder, ds: SelectionsDecoder, pf: ParseFloat)
    ensures |Operations(lines, dc, ds, pf)| <= |lines|
    ensures forall op :: op in Operations(lines, dc, ds, pf) ==> PricedExpansionOfSomeLine(op, lines)
  {
    var f := (line: CartLine) => LineOperation(line, dc, ds, pf);
    forall op | op in Operations(lines, dc, ds, pf)
      ensures PricedExpansionOfSomeLine(op, lines)
    {
      CollectFrom(lines, f, op);
      var i :| 0 <= i < |lines| && f(lines[i]) == Some(op);
      LineOperationExpands(lines[i], dc, ds, pf);
      assert lines[i] in lines;
    }
  }

  lemma LineOperationExpands(line: CartLine, dc: ConfigDecoder, ds: SelectionsDecoder, pf: ParseFloat)
    requires LineOperation(line, dc, ds, pf).Some?
    ensures ExpansionOf(LineOperation(line, dc, ds, pf).value, line)
  {
  }

  /** `op` expands `line`: same line id, one item with the line's merchandise and quantity, the
      charged unit price positive and equal to the recorded `_Customizer-Price`. */
  predicate ExpansionOf(op: ExpandOperation, line: CartLine) {
    && op.cartLineId == line.id
    && |op.expandedCartItems| == 1
    && op.expandedCartItems[0].merchandiseId == line.merchandiseId
    && op.expandedCartItems[0].quantity == line.quantity
    && op.expandedCartItems[0].fixedPricePerUnit.Fixed2?
    && op.expandedCartItems[0].fixedPricePerUnit.n.Num?
    && op.expandedCartItems[0].fixedPricePerUnit.n.r > 0.0
    && |op.attributes| == 5
    && op.attributes[3] == OutputAttribute("_Customizer-Price", op.expandedCartItems[0].fixedPricePerUnit)
  }

  predicate PricedExpansionOfSomeLine(op: ExpandOperation, lines: seq<CartLine>) {
    exists line :: line in lines && ExpansionOf(op, line)
  }

  /** The result is `NO_CHANGES` exactly when no line qualifies. */
  lemma NoChangesIff(lines: seq<CartLine>, dc: ConfigDecoder, ds: SelectionsDecoder, pf: ParseFloat)
    ensures Operations(lines, dc, ds, pf) == [] <==> forall i :: 0 <= i < |lines| ==> LineOperation(lines[i], dc, ds, pf).None?
  {
    CollectEmptyIff(lines, (line: CartLine) => LineOperation(line, dc, ds, pf));
  }

  /** An operation copies the two customizer attributes verbatim into `_Customizer-Config` and
      `_Customizer-Selections`. */
  lemma OperationEchoesAttributes(line: CartLine, dc: ConfigDecoder, ds: SelectionsDecoder, pf: ParseFloat)
    requires LineOperation(line, dc, ds, pf).Some?
    ensures var op := LineOperation(line, dc, ds, pf).value;
            && op.attributes[0] == OutputAttribute("_Customizer-Enabled", Text("true"))
            && op.attributes[1] == OutputAttribute("_Customizer-Config", Text(FindAttribute(line.attributes, ConfigKey).value.value))
            && op.attributes[2] == OutputAttribute("_Customizer-Selections", Text(FindAttribute(line.attributes, SelectionsKey).value.value))
            && op.expandedCartItems[0].fixedPricePerUnit
               == Fixed2(Num(TotalPrice(dc(FindAttribute(line.attributes, ConfigKey).value.value).value,
                                        SelectionsOf(ds(FindAttribute(line.attributes, SelectionsKey).value.value).value), pf)))
  {
    var configText := FindAttribute(line.attributes, ConfigKey).value.value;
    var selectionsText := FindAttribute(line.attributes, SelectionsKey).value.value;
    var price := TotalPrice(dc(configText).value, SelectionsOf(ds(selectionsText).value), pf);
    assert LineOperation(line, dc, ds, pf) == Some(Expand(line, configText, selectionsText, price, pf));
  }

  /** A line whose attributes hold a configuration with an enabled area block and a
      non-positive width is left alone. */
  lemma ZeroWidthLineUnchanged(line: CartLine, dc: ConfigDecoder, ds: SelectionsDecoder, pf: ParseFloat)
    requires FindAttribute(line.attributes, ConfigKey).Some? && FindAttribute(line.attributes, SelectionsKey).Some?
    requires var c := dc(FindAttribute(line.attributes, ConfigKey).value.value);
             var s := ds(FindAttribute(line.attributes, SelectionsKey).value.value);
             && c.Some? && c.value.IsArray? && s.Some?
             && Find(c.value.items, IsEnabledArea).Some?
             && AreaWidth(Find(c.value.items, IsEnabledArea).value, SelectionsOf(s.value), pf) <= 0.0
    ensures LineOperation(line, dc, ds, pf).None?
  {
    var c := dc(FindAttribute(line.attributes, ConfigKey).value.value);
    var s := ds(FindAttribute(line.attributes, SelectionsKey).value.value);
    NonPositiveWidthPricesZero(c.value.items, SelectionsOf(s.value), pf);
  }
}
