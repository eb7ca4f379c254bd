/** The header options editor: a list of header types (label, price, image address) that the
    merchant edits, validates and saves. */
module HeaderOptions {
  import opened Js
  import opened ErrorKeys
  import opened OptionLists

  /** One header option. A missing label is the empty string. */
  datatype HeaderOption = HeaderOption(value: string, price: JsValue, imageUrl: string)

  /** The option properties `updateOption` writes; each takes the text field's string. */
  datatype HeaderField = ValueField | PriceField | ImageUrlField

  const TypeMissing := "Header tipi gerekli"

  /** The option `addOption` appends. */
  const NewHeaderOption := HeaderOption("", Num(0.0), "")

  /** The message `validate` leaves under each key: `${idx}-value` and `${idx}-price` for the
      options in the list, nothing else; the image address is never checked. */
  function HeaderExpected(options: seq<HeaderOption>, k: ErrorKey, pf: ParseFloat): (m: Option<string>)
    ensures m.Some? ==> k.FieldKey? && k.index < |options| && m.value != ""
  {
    match k
    case FieldKey(i, slot) =>
      if i >= |options| then None
      else if slot == ValueSlot then (if Blank(options[i].value) then Some(TypeMissing) else None)
      else if slot == PriceSlot then (if !PriceIsNumeric(options[i].price, pf) then Some(PriceNotNumeric) else None)
      else None
    case _ => None
  }

  ghost predicate HeaderReports(options: seq<HeaderOption>, errors: ErrorMap, pf: ParseFloat) {
    forall k :: (k in errors <==> HeaderExpected(options, k, pf).Some?)
             && (k in errors ==> errors[k] == HeaderExpected(options, k, pf).value)
  }

  /** One option passes every check. */
  predicate HeaderOptionValid(o: HeaderOption, pf: ParseFloat) {
    !Blank(o.value) && PriceIsNumeric(o.price, pf)
  }

  /** A freshly added option fails only for its missing header type: its price 0 passes. */
  lemma NewOptionNeedsOnlyType(options: seq<HeaderOption>, pf: ParseFloat)
    ensures var os := options + [NewHeaderOption];
            && HeaderExpected(os, FieldKey(|options|, ValueSlot), pf) == Some(TypeMissing)
            && HeaderExpected(os, FieldKey(|options|, PriceSlot), pf).None?
            && !HeaderOptionValid(NewHeaderOption, pf)
  {
    var os := options + [NewHeaderOption];
    assert os[|options|] == NewHeaderOption;
  }

  /** The loop of `validate`: one pass over the options, adding each failed check. */
  method ValidateHeaderOptions(options: seq<HeaderOption>, pf: ParseFloat) returns (errors: ErrorMap)
    ensures HeaderReports(options, errors, pf)
  {
    errors := map[];
    var idx := 0;
    while idx < |options|
      invariant idx <= |options|
      invariant forall k :: (k in errors <==> Owner(k) < idx && HeaderExpected(options, k, pf).Some?)
      invariant forall k :: k in errors ==> errors[k] == HeaderExpected(options, k, pf).value
    {
      var opt := options[idx];
      if Blank(opt.value) {
        errors := errors[FieldKey(idx, ValueSlot) := TypeMissing];
      }
      if !PriceIsNumeric(opt.price, pf) {
        errors := errors[FieldKey(idx, PriceSlot) := PriceNotNumeric];
      }
      idx := idx + 1;
    }
  }

  /** `validate` succeeds, the condition for saving, exactly when every option is valid. */
  lemma HeaderNoErrorsIffAllValid(options: seq<HeaderOption>, errors: ErrorMap, pf: ParseFloat)
    requires HeaderReports(options, errors, pf)
    ensures errors == map[] <==> forall i :: 0 <= i < |options| ==> HeaderOptionValid(options[i], pf)
  {
    if errors == map[] {
      forall i | 0 <= i < |options|
        ensures HeaderOptionValid(options[i], pf)
      {
        assert HeaderExpected(options, FieldKey(i, ValueSlot), pf).None?;
        assert HeaderExpected(options, FieldKey(i, PriceSlot), pf).None?;
      }
    } else {
      var k :| k in errors;
      assert HeaderExpected(options, k, pf).Some?;
      assert !HeaderOptionValid(options[k.index], pf);
    }
  }

  /** Editing an option's image address never changes what `validate` reports. */
  lemma ImageUrlIsNotValidated(options: seq<HeaderOption>, i: nat, url: string, pf: ParseFloat, k: ErrorKey)
    requires i < |options|
    ensures HeaderExpected(options[i := options[i].(imageUrl := url)], k, pf) == HeaderExpected(options, k, pf)
  {
  }

  function WithHeaderField(o: HeaderOption, name: HeaderField, text: string): HeaderOption {
    match name
    case ValueField => o.(value := text)
    case PriceField => o.(price := Str(text))
    case ImageUrlField => o.(imageUrl := text)
  }

  class HeaderOptionsEditor {
    var options: seq<HeaderOption>
    var errors: ErrorMap
    const pf: ParseFloat

    constructor(initialValue: Initial<HeaderOption>, parse: JsonParse<HeaderOption>, parseFloat: ParseFloat)
      ensures options == ParseInitial(initialValue, parse) && errors == map[] && pf == parseFloat
    {
      options := ParseInitial(initialValue, parse);
      errors := map[];
      pf := parseFloat;
    }

    /** `addOption`: an unlabelled option priced 0 without an image at the end. */
    method AddOption()
      modifies this
      ensures options == old(options) + [NewHeaderOption] && errors == old(errors)
    {
      options := options + [NewHeaderOption];
    }

    /** `updateOption(index, field, value)`: one property of one option, nothing else. */
    method UpdateOption(index: nat, name: HeaderField, text: string)
      modifies this
      requires index < |options|
      ensures options == old(options)[index := WithHeaderField(old(options)[index], name, text)]
      ensures errors == old(errors)
    {
      options := options[index := WithHeaderField(options[index], name, text)];
    }

    /** `removeOption(index)`: drop the option at `index`. */
    method RemoveOption(index: int)
      modifies this
      ensures options == RemoveAt(old(options), index) && errors == old(errors)
    {
      options := RemoveAt(options, index);
    }

    /** `validate`: replace the error map and report whether it is empty. */
    method Validate() returns (ok: bool)
      modifies this
      ensures HeaderReports(options, errors, pf)
      ensures ok <==> errors == map[]
      ensures options == old(options)
    {
      errors := ValidateHeaderOptions(options, pf);
      ok := |errors.Keys| == 0;
    }

    /** `handleSave`: the options reach `onSave` exactly when every one is valid. */
    method HandleSave() returns (saved: Option<seq<HeaderOption>>)
      modifies this
      ensures saved.Some? <==> forall i :: 0 <= i < |options| ==> HeaderOptionValid(options[i], pf)
      ensures saved.Some? ==> saved.value == options
      ensures HeaderReports(options, errors, pf)
      ensures options == old(options)
    {
      var ok := Validate();
      HeaderNoErrorsIffAllValid(options, errors, pf);
      saved := if ok then Some(options) else None;
    }
  }
}
