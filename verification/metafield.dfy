/** The "options" metafield as the metafield editor sees it: a JSON list of typed fields, its
    parser, its validator (an error map keyed by field and option position) and the default
    fields and option lists a new or retyped field starts from. */
module Metafield {
  import opened Js
  import opened ErrorKeys

  /** `{ label, value }`; a missing string is "" (both are only tested for blankness). */
  datatype FieldOption = FieldOption(labelText: string, value: string)

  /** One field. `key` is None when the key is missing, because two missing keys are equal
      (`undefined === undefined`) while a missing key differs from "". A missing `options`
      list is []: every reader treats the two alike. */
  datatype Field = Field(
    fieldType: string,
    labelText: string,
    key: Option<string>,
    required: bool,
    options: seq<FieldOption>,
    defaultValue: string)

  /** `parseMetafieldValue(jsonString)`: the parsed list, or [] for an empty string, for
      "null", for text that does not parse and for JSON that is not an array. */
  function ParseMetafieldValue(text: string, parse: JsonParse<Field>): (r: seq<Field>)
    ensures text == "" || text == "null" ==> r == []
    ensures text != "" && text != "null" && !parse(text).JsonArray? ==> r == []
    ensures r != [] ==> text != "" && text != "null" && parse(text) == JsonArray(r)
  {
    if text == "" || text == "null" then []
    else
      match parse(text)
      case JsonArray(items) => items
      case _ => []
  }

  const InvalidFormat := "Ge\U{00E7}ersiz veri format\U{0131}"
  const LabelRequired := "Label gereklidir"
  const KeyRequired := "Key gereklidir"
  const KeyInUse := "Bu key zaten kullan\U{0131}l\U{0131}yor"
  const OptionsRequired := "En az bir se\U{00E7}enek gereklidir"
  const OptionLabelRequired := "Se\U{00E7}enek label'\U{0131} gereklidir"
  const OptionValueRequired := "Se\U{00E7}enek de\U{011F}eri gereklidir"

  /** The field types whose options are checked. */
  predicate NeedsOptions(fieldType: string) {
    fieldType == "color" || fieldType == "header" || fieldType == "grommet" || fieldType == "size"
  }

  /** `!field.key || !field.key.trim()`. */
  predicate KeyMissing(key: Option<string>) {
    key.None? || Blank(key.value)
  }

  /** Some other field has the same key (`===`, so two missing keys count as the same). */
  predicate HasDuplicateKey(fields: seq<Field>, i: nat)
    requires i < |fields|
  {
    exists j :: 0 <= j < |fields| && j != i && fields[j].key == fields[i].key
  }

  /** `fields.filter((f, i) => i !== index && f.key === field.key)`. */
  function SameKeyOthers(fields: seq<Field>, index: nat, key: Option<string>): (r: seq<Field>)
    ensures |r| <= |fields|
    ensures |r| > 0 <==> exists j :: 0 <= j < |fields| && j != index && fields[j].key == key
    decreases |fields|
  {
    if fields == [] then []
    else
      var n := |fields| - 1;
      var init := SameKeyOthers(fields[..n], index, key);
      assert forall j :: 0 <= j < n ==> fields[..n][j] == fields[j];
      if n != index && fields[n].key == key then init + [fields[n]] else init
  }

  /** The message the validator leaves under a field-level key, or None. A duplicated key
      overrides the "required" message. */
  function FieldExpected(fields: seq<Field>, i: nat, slot: Slot): (m: Option<string>)
    requires i < |fields|
    ensures slot != LabelSlot && slot != KeySlot && slot != OptionsSlot ==> m.None?
  {
    var f := fields[i];
    if slot == LabelSlot then
      if Blank(f.labelText) then Some(LabelRequired) else None
    else if slot == KeySlot then
      if HasDuplicateKey(fields, i) then Some(KeyInUse)
      else if KeyMissing(f.key) then Some(KeyRequired)
      else None
    else if slot == OptionsSlot then
      if NeedsOptions(f.fieldType) && f.options == [] then Some(OptionsRequired) else None
    else None
  }

  function OptionExpected(o: FieldOption, slot: Slot): (m: Option<string>)
    ensures slot != LabelSlot && slot != ValueSlot ==> m.None?
  {
    if slot == LabelSlot then
      if Blank(o.labelText) then Some(OptionLabelRequired) else None
    else if slot == ValueSlot then
      if Blank(o.value) then Some(OptionValueRequired) else None
    else None
  }

  /** What `validateMetafieldFields` of a list leaves under each key: field keys for indices
      in range, option keys only for the option-bearing types and option indices in range,
      and never the `general` key. */
  function ExpectedAt(fields: seq<Field>, k: ErrorKey): Option<string> {
    match k
    case General => None
    case FieldKey(i, slot) =>
      if i < |fields| then FieldExpected(fields, i, slot) else None
    case OptionKey(i, j, slot) =>
      if i < |fields| && NeedsOptions(fields[i].fieldType) && j < |fields[i].options|
      then OptionExpected(fields[i].options[j], slot)
      else None
  }

  /** The error map holds exactly the expected keys, each with the expected message. */
  ghost predicate Reports(fields: seq<Field>, errors: ErrorMap) {
    forall k :: (k in errors <==> ExpectedAt(fields, k).Some?)
             && (k in errors ==> errors[k] == ExpectedAt(fields, k).value)
  }

  /** `validateMetafieldFields(fields)`: `{ general }` for a value that is not an array;
      otherwise one `forEach` pass per field, filling the error map. */
  method ValidateMetafieldFields(fields: ArrayOrNot<Field>) returns (errors: ErrorMap)
    ensures fields.NotArray? ==> errors == map[General := InvalidFormat]
    ensures fields.IsArray? ==> Reports(fields.items, errors)
  {
    if fields.NotArray? {
      return map[General := InvalidFormat];
    }
    var fs := fields.items;
    errors := map[];
    var i := 0;
    while i < |fs|
      invariant 0 <= i <= |fs|
      invariant forall k :: (k in errors <==> Owner(k) < i && ExpectedAt(fs, k).Some?)
                         && (k in errors ==> errors[k] == ExpectedAt(fs, k).value)
    {
      errors := ValidateField(fs, i, errors);
      i := i + 1;
    }
  }

  /** The body of the `forEach` for field `index`: adds exactly that field's expected keys. */
  method ValidateField(fields: seq<Field>, index: nat, errors: ErrorMap) returns (out: ErrorMap)
    requires index < |fields|
    requires forall k :: k in errors ==> Owner(k) < index
    ensures forall k :: (k in out <==> k in errors || (Owner(k) == index && ExpectedAt(fields, k).Some?))
    ensures forall k :: k in out ==> out[k] == if Owner(k) == index then ExpectedAt(fields, k).value else errors[k]
  {
    var field := fields[index];
    out := ValidateFieldSlots(fields, index, errors);
    if NeedsOptions(field.fieldType) && field.options != [] {
      out := ValidateOptions(fields, index, out);
    }
  }

  /** The field-level checks of field `index`: label, key (missing or taken by another
      field) and, for the option-bearing types, a non-empty option list. */
  method ValidateFieldSlots(fields: seq<Field>, index: nat, errors: ErrorMap) returns (out: ErrorMap)
    requires index < |fields|
    requires forall k :: k in errors ==> Owner(k) < index
    ensures forall k :: (k in out <==> k in errors || (k.FieldKey? && Owner(k) == index && ExpectedAt(fields, k).Some?))
    ensures forall k :: k in out ==> out[k] == if k.FieldKey? && Owner(k) == index then ExpectedAt(fields, k).value else errors[k]
  {
    var field := fields[index];
    out := errors;
    if Blank(field.labelText) {
      out := out[FieldKey(index, LabelSlot) := LabelRequired];
    }
    if KeyMissing(field.key) {
      out := out[FieldKey(index, KeySlot) := KeyRequired];
    }
    var duplicateKeys := SameKeyOthers(fields, index, field.key);
    if |duplicateKeys| > 0 {
      out := out[FieldKey(index, KeySlot) := KeyInUse];
    }
    if NeedsOptions(field.fieldType) && field.options == [] {
      out := out[FieldKey(index, OptionsSlot) := OptionsRequired];
    }
  }

  /** The inner `forEach` over the options of field `index`. */
  method ValidateOptions(fields: seq<Field>, index: nat, errors: ErrorMap) returns (out: ErrorMap)
    requires index < |fields| && NeedsOptions(fields[index].fieldType)
    requires forall k :: k in errors ==> !k.OptionKey? || Owner(k) != index
    ensures forall k :: (k in out <==> k in errors || (k.OptionKey? && Owner(k) == index && ExpectedAt(fields, k).Some?))
    ensures forall k :: k in out ==> out[k] == if k.OptionKey? && Owner(k) == index then ExpectedAt(fields, k).value else errors[k]
  {
    var options := fields[index].options;
    out := errors;
    var j := 0;
    while j < |options|
      invariant 0 <= j <= |options|
      invariant forall k :: (k in out <==> k in errors || (k.OptionKey? && Owner(k) == index && k.option < j && ExpectedAt(fields, k).Some?))
      invariant forall k :: k in out ==> out[k] == if k.OptionKey? && Owner(k) == index then ExpectedAt(fields, k).value else errors[k]
    {
      if Blank(options[j].labelText) {
        out := out[OptionKey(index, j, LabelSlot) := OptionLabelRequired];
      }
      if Blank(options[j].value) {
        out := out[OptionKey(index, j, ValueSlot) := OptionValueRequired];
      }
      j := j + 1;
    }
  }

  /** One field passes every check. */
  predicate FieldValid(fields: seq<Field>, i: nat)
    requires i < |fields|
  {
    var f := fields[i];
    && !Blank(f.labelText)
    && !KeyMissing(f.key)
    && !HasDuplicateKey(fields, i)
    && (NeedsOptions(f.fieldType) ==>
          f.options != []
          && forall j :: 0 <= j < |f.options| ==> !Blank(f.options[j].labelText) && !Blank(f.options[j].value))
  }

  /** An empty error map, the editor's condition for saving, means exactly that every field is
      valid: labelled, keyed with a key no other field has, and with non-blank options where
      its type needs options. */
  lemma NoErrorsIffAllValid(fields: seq<Field>, errors: ErrorMap)
    requires Reports(fields, errors)
    ensures errors == map[] <==> forall i :: 0 <= i < |fields| ==> FieldValid(fields, i)
  {
    if errors == map[] {
      forall i | 0 <= i < |fields|
        ensures FieldValid(fields, i)
      {
        assert ExpectedAt(fields, FieldKey(i, LabelSlot)).None?;
        assert ExpectedAt(fields, FieldKey(i, KeySlot)).None?;
        assert ExpectedAt(fields, FieldKey(i, OptionsSlot)).None?;
        var f := fields[i];
        if NeedsOptions(f.fieldType) {
          forall j | 0 <= j < |f.options|
            ensures !Blank(f.options[j].labelText) && !Blank(f.options[j].value)
          {
            assert ExpectedAt(fields, OptionKey(i, j, LabelSlot)).None?;
            assert ExpectedAt(fields, OptionKey(i, j, ValueSlot)).None?;
          }
        }
      }
    } else {
      var k :| k in errors;
      assert ExpectedAt(fields, k).Some?;
      assert !FieldValid(fields, Owner(k));
    }
  }

  /** Two fields sharing a key are both reported under their own `-key` entry with the
      duplicate message, even when the shared key is missing. */
  lemma DuplicateKeyFlagsBoth(fields: seq<Field>, errors: ErrorMap, i: nat, j: nat)
    requires Reports(fields, errors)
    requires i < |fields| && j < |fields| && i != j && fields[i].key == fields[j].key
    ensures errors[FieldKey(i, KeySlot)] == KeyInUse && errors[FieldKey(j, KeySlot)] == KeyInUse
  {
    assert HasDuplicateKey(fields, i);
    assert HasDuplicateKey(fields, j) by {
      assert fields[i].key == fields[j].key;
    }
    assert ExpectedAt(fields, FieldKey(i, KeySlot)) == Some(KeyInUse);
    assert ExpectedAt(fields, FieldKey(j, KeySlot)) == Some(KeyInUse);
  }

  /** Options of the types outside color, header, grommet and size are never examined. */
  lemma OtherTypesIgnoreOptions(fields: seq<Field>, errors: ErrorMap, i: nat)
    requires Reports(fields, errors)
    requires i < |fields| && !NeedsOptions(fields[i].fieldType)
    ensures FieldKey(i, OptionsSlot) !in errors
    ensures forall j, slot :: OptionKey(i, j, slot) !in errors
  {
    forall j, slot
      ensures OptionKey(i, j, slot) !in errors
    {
      assert ExpectedAt(fields, OptionKey(i, j, slot)).None?;
    }
    assert ExpectedAt(fields, FieldKey(i, OptionsSlot)).None?;
  }

  function Opt(labelText: string, value: string): FieldOption {
    FieldOption(labelText, value)
  }

  const ColorDefaults := [
    Opt("K\U{0131}rm\U{0131}z\U{0131}", "red"), Opt("Mavi", "blue"), Opt("Ye\U{015F}il", "green"),
    Opt("Sar\U{0131}", "yellow"), Opt("Siyah", "black"), Opt("Beyaz", "white")]
  const HeaderDefaults := [Opt("Standart", "standard"), Opt("\U{00D6}zel", "custom"), Opt("Minimal", "minimal")]
  const GrommetDefaults := [Opt("Yuvarlak", "round"), Opt("Kare", "square"), Opt("Oval", "oval")]
  const SizeDefaults := [Opt("K\U{00FC}\U{00E7}\U{00FC}k", "small"), Opt("Orta", "medium"), Opt("B\U{00FC}y\U{00FC}k", "large")]

  /** `getDefaultOptionsForType(type)`: six colours, three of each other option-bearing
      type, and [] for any other type. */
  function GetDefaultOptionsForType(fieldType: string): (r: seq<FieldOption>)
    ensures fieldType == "color" ==> |r| == 6
    ensures fieldType == "header" || fieldType == "grommet" || fieldType == "size" ==> |r| == 3
    ensures !NeedsOptions(fieldType) ==> r == []
  {
    if fieldType == "color" then ColorDefaults
    else if fieldType == "header" then HeaderDefaults
    else if fieldType == "grommet" then GrommetDefaults
    else if fieldType == "size" then SizeDefaults
    else []
  }

  /** `createDefaultField(type)`: an unlabelled, unkeyed, optional field; only a colour field
      starts with options, the first three colours. */
  function CreateDefaultField(fieldType: string): (f: Field)
    ensures f.fieldType == fieldType && f.labelText == "" && f.key == Some("") && !f.required
    ensures f.defaultValue == ""
    ensures fieldType == "color" ==> f.options == GetDefaultOptionsForType("color")[..3]
    ensures fieldType != "color" ==> f.options == []
  {
    Field(fieldType, "", Some(""), false,
          if fieldType == "color" then [ColorDefaults[0], ColorDefaults[1], ColorDefaults[2]] else [],
          "")
  }

  predicate StartsNonSpace(s: string) {
    s != [] && !IsSpace(s[0])
  }

  /** Every default option passes the option checks. */
  lemma DefaultOptionsAreValid(fieldType: string)
    ensures forall o :: o in GetDefaultOptionsForType(fieldType) ==> !Blank(o.labelText) && !Blank(o.value)
  {
    var opts := GetDefaultOptionsForType(fieldType);
    forall o | o in opts
      ensures !Blank(o.labelText) && !Blank(o.value)
    {
      assert StartsNonSpace(o.labelText) && StartsNonSpace(o.value);
    }
  }

  /** A field just created fails validation until it gets a label and a key. */
  lemma NewFieldNeedsLabelAndKey(fields: seq<Field>, fieldType: string, errors: ErrorMap)
    requires Reports(fields + [CreateDefaultField(fieldType)], errors)
    ensures errors[FieldKey(|fields|, LabelSlot)] == LabelRequired
    ensures FieldKey(|fields|, KeySlot) in errors
  {
    var all := fields + [CreateDefaultField(fieldType)];
    assert all[|fields|] == CreateDefaultField(fieldType);
    assert Blank("");
    assert ExpectedAt(all, FieldKey(|fields|, LabelSlot)) == Some(LabelRequired);
    assert ExpectedAt(all, FieldKey(|fields|, KeySlot)).Some?;
  }
}
