/** The colour options editor: a list of colour options (label, hex code, price) that the
    merchant edits, validates and saves. */
module ColorOptions {
  import opened Js
  import opened ErrorKeys
  import opened OptionLists

  /** One colour option. A missing label is the empty string. */
  datatype ColorOption = ColorOption(value: string, hex: string, price: JsValue)

  /** The option properties `updateOption` writes; each takes the text field's string. */
  datatype ColorField = ValueField | HexField | PriceField

  const LabelMissing := "Label gerekli"
  const HexInvalid := "Ge\U{00E7}ersiz HEX"

  /** The option `addOption` appends. */
  const NewColorOption := ColorOption("", "#000000", Num(0.0))

  predicate IsHexDigit(c: char) {
    ('0' <= c <= '9') || ('a' <= c <= 'f') || ('A' <= c <= 'F')
  }

  /** The group `[0-9A-Fa-f]{3}` of the hex pattern. */
  predicate ThreeHex(t: string) {
    |t| == 3 && IsHexDigit(t[0]) && IsHexDigit(t[1]) && IsHexDigit(t[2])
  }

  /** `/^#([0-9A-Fa-f]{3}){1,2}$/.test(s)`, read off the pattern: `#`, then the group once or twice. */
  predicate HexPattern(s: string) {
    |s| >= 1 && s[0] == '#'
    && (ThreeHex(s[1..]) || (|s| == 7 && ThreeHex(s[1..4]) && ThreeHex(s[4..])))
  }

  /** The pattern accepts exactly `#` followed by three or six hex digits. */
  lemma HexPatternShape(s: string)
    ensures HexPattern(s) <==>
              (|s| == 4 || |s| == 7) && s[0] == '#' && forall i :: 1 <= i < |s| ==> IsHexDigit(s[i])
  {
    if (|s| == 4 || |s| == 7) && s[0] == '#' && forall i :: 1 <= i < |s| ==> IsHexDigit(s[i]) {
      if |s| == 7 {
        assert ThreeHex(s[1..4]) by { assert s[1..4][0] == s[1] && s[1..4][1] == s[2] && s[1..4][2] == s[3]; }
        assert ThreeHex(s[4..]) by { assert s[4..][0] == s[4] && s[4..][1] == s[5] && s[4..][2] == s[6]; }
      } else {
        assert ThreeHex(s[1..]) by { assert s[1..][0] == s[1] && s[1..][1] == s[2] && s[1..][2] == s[3]; }
      }
    }
    if HexPattern(s) {
      if ThreeHex(s[1..]) {
        assert forall i :: 1 <= i < |s| ==> s[i] == s[1..][i - 1];
      } else {
        assert forall i :: 1 <= i < 4 ==> s[i] == s[1..4][i - 1];
        assert forall i :: 4 <= i < 7 ==> s[i] == s[4..][i - 4];
      }
    }
  }

  /** The message `validate` leaves under each key: `${idx}-value`, `${idx}-hex` and
      `${idx}-price` for the options in the list, nothing else. */
  function ColorExpected(options: seq<ColorOption>, k: ErrorKey, pf: ParseFloat): (m: Option<string>)
    ensures m.Some? ==> k.FieldKey? && k.index < |options| && m.value != ""
  {
    match k
    case FieldKey(i, slot) =>
      if i >= |options| then None
      else if slot == ValueSlot then (if Blank(options[i].value) then Some(LabelMissing) else None)
      else if slot == HexSlot then (if !HexPattern(options[i].hex) then Some(HexInvalid) else None)
      else if slot == PriceSlot then (if !PriceIsNumeric(options[i].price, pf) then Some(PriceNotNumeric) else None)
      else None
    case _ => None
  }

  ghost predicate ColorReports(options: seq<ColorOption>, errors: ErrorMap, pf: ParseFloat) {
    forall k :: (k in errors <==> ColorExpected(options, k, pf).Some?)
             && (k in errors ==> errors[k] == ColorExpected(options, k, pf).value)
  }

  /** One option passes every check. */
  predicate ColorOptionValid(o: ColorOption, pf: ParseFloat) {
    !Blank(o.value) && HexPattern(o.hex) && PriceIsNumeric(o.price, pf)
  }

  /** The loop of `validate`: one pass over the options, adding each failed check. */
  method ValidateColorOptions(options: seq<ColorOption>, pf: ParseFloat) returns (errors: ErrorMap)
    ensures ColorReports(options, errors, pf)
  {
    errors := map[];
    var idx := 0;
    while idx < |options|
      invariant idx <= |options|
      invariant forall k :: (k in errors <==> Owner(k) < idx && ColorExpected(options, k, pf).Some?)
      invariant forall k :: k in errors ==> errors[k] == ColorExpected(options, k, pf).value
    {
      var opt := options[idx];
      if Blank(opt.value) {
        errors := errors[FieldKey(idx, ValueSlot) := LabelMissing];
      }
      if !HexPattern(opt.hex) {
        errors := errors[FieldKey(idx, HexSlot) := HexInvalid];
      }
      if !PriceIsNumeric(opt.price, pf) {
        errors := errors[FieldKey(idx, PriceSlot) := PriceNotNumeric];
      }
      idx := idx + 1;
    }
  }

  /** `validate` succeeds, the condition for saving, exactly when every option is valid. */
  lemma ColorNoErrorsIffAllValid(options: seq<ColorOption>, errors: ErrorMap, pf: ParseFloat)
    requires ColorReports(options, errors, pf)
    ensures errors == map[] <==> forall i :: 0 <= i < |options| ==> ColorOptionValid(options[i], pf)
  {
    if errors == map[] {
      forall i | 0 <= i < |options|
        ensures ColorOptionValid(options[i], pf)
      {
        assert ColorExpected(options, FieldKey(i, ValueSlot), pf).None?;
        assert ColorExpected(options, FieldKey(i, HexSlot), pf).None?;
        assert ColorExpected(options, FieldKey(i, PriceSlot), pf).None?;
      }
    } else {
      var k :| k in errors;
      assert ColorExpected(options, k, pf).Some?;
      assert !ColorOptionValid(options[k.index], pf);
    }
  }

  /** A freshly added option fails only for its missing label: its hex code and price pass. */
  lemma NewOptionNeedsOnlyLabel(options: seq<ColorOption>, pf: ParseFloat)
    ensures var os := options + [NewColorOption];
            && ColorExpected(os, FieldKey(|options|, ValueSlot), pf) == Some(LabelMissing)
            && ColorExpected(os, FieldKey(|options|, HexSlot), pf).None?
            && ColorExpected(os, FieldKey(|options|, PriceSlot), pf).None?
  {
    var os := options + [NewColorOption];
    assert os[|options|] == NewColorOption;
    assert ThreeHex(NewColorOption.hex[1..]) || ThreeHex(NewColorOption.hex[1..4]);
    assert ThreeHex(NewColorOption.hex[1..4]) && ThreeHex(NewColorOption.hex[4..]);
  }

  function WithColorField(o: ColorOption, name: ColorField, text: string): ColorOption {
    match name
    case ValueField => o.(value := text)
    case HexField => o.(hex := text)
    case PriceField => o.(price := Str(text))
  }

  class ColorOptionsEditor {
    var options: seq<ColorOption>
    var errors: ErrorMap
    const pf: ParseFloat

    constructor(initialValue: Initial<ColorOption>, parse: JsonParse<ColorOption>, parseFloat: ParseFloat)
      ensures options == ParseInitial(initialValue, parse) && errors == map[] && pf == parseFloat
    {
      options := ParseInitial(initialValue, parse);
      errors := map[];
      pf := parseFloat;
    }

    /** `addOption`: an unlabelled black option priced 0 at the end. */
    method AddOption()
      modifies this
      ensures options == old(options) + [NewColorOption] && errors == old(errors)
    {
      options := options + [NewColorOption];
    }

    /** `updateOption(index, field, value)`: one property of one option, nothing else. */
    method UpdateOption(index: nat, name: ColorField, text: string)
      modifies this
      requires index < |options|
      ensures options == old(options)[index := WithColorField(old(options)[index], name, text)]
      ensures errors == old(errors)
    {
      options := options[index := WithColorField(options[index], name, text)];
    }

    /** `removeOption(index)`: drop the option at `index`. */
    method RemoveOption(index: int)
      modifies this
      ensures options == RemoveAt(old(options), index) && errors == old(errors)
    {
      options := RemoveAt(options, index);
    }

    /** `validate`: replace the error map and report whether it is empty. */
    method Validate() returns (ok: bool)
      modifies this
      ensures ColorReports(options, errors, pf)
      ensures ok <==> errors == map[]
      ensures options == old(options)
    {
      errors := ValidateColorOptions(options, pf);
      ok := |errors.Keys| == 0;
    }

    /** `handleSave`: the options reach `onSave` exactly when every one is valid. */
    method HandleSave() returns (saved: Option<seq<ColorOption>>)
      modifies this
      ensures saved.Some? <==> forall i :: 0 <= i < |options| ==> ColorOptionValid(options[i], pf)
      ensures saved.Some? ==> saved.value == options
      ensures ColorReports(options, errors, pf)
      ensures options == old(options)
    {
      var ok := Validate();
      ColorNoErrorsIffAllValid(options, errors, pf);
      saved := if ok then Some(options) else None;
    }
  }
}
