/** The state of the metafield editor component: the fields being edited, the error map shown
    next to them, and the pending delete confirmation. Each handler is a method that changes
    that state; `onSave` is modelled by returning the fields it would receive. */
module MetafieldEditorState {
  import opened Js
  import opened ErrorKeys
  import opened Metafield

  /** The field properties the form edits through `updateField`. */
  datatype FieldName = LabelField | KeyField | TypeField | DefaultValueField

  /** The options' properties the form edits through `updateOption`. */
  datatype OptionFieldName = OptionLabel | OptionValue

  function SlotOf(name: FieldName): Slot {
    match name
    case LabelField => LabelSlot
    case KeyField => KeySlot
    case TypeField => TypeSlot
    case DefaultValueField => DefaultValueSlot
  }

  /** `{ ...field, [name]: value }`, followed for a type change by the new type's default
      options and an empty default value. */
  function WithField(f: Field, name: FieldName, value: string): (r: Field)
    ensures name == LabelField ==> r == f.(labelText := value)
    ensures name == KeyField ==> r == f.(key := Some(value))
    ensures name == DefaultValueField ==> r == f.(defaultValue := value)
    ensures name == TypeField ==> r.fieldType == value && r.options == GetDefaultOptionsForType(value)
                                  && r.defaultValue == "" && r.labelText == f.labelText && r.key == f.key
    ensures name != TypeField ==> r.options == f.options && r.fieldType == f.fieldType
  {
    match name
    case LabelField => f.(labelText := value)
    case KeyField => f.(key := Some(value))
    case TypeField => f.(fieldType := value, options := GetDefaultOptionsForType(value), defaultValue := "")
    case DefaultValueField => f.(defaultValue := value)
  }

  function WithOption(o: FieldOption, name: OptionFieldName, value: string): FieldOption {
    match name
    case OptionLabel => o.(labelText := value)
    case OptionValue => o.(value := value)
  }

  /** After a type change to an option-bearing type the field's options pass every option
      check, so no `-options` or option-level error is expected for it. */
  lemma RetypedFieldHasValidOptions(fields: seq<Field>, i: nat, t: string)
    requires i < |fields| && NeedsOptions(t)
    ensures var fs := fields[i := WithField(fields[i], TypeField, t)];
            && ExpectedAt(fs, FieldKey(i, OptionsSlot)).None?
            && forall j: nat, slot :: ExpectedAt(fs, OptionKey(i, j, slot)).None?
  {
    var fs := fields[i := WithField(fields[i], TypeField, t)];
    DefaultOptionsAreValid(t);
    forall j: nat, slot
      ensures ExpectedAt(fs, OptionKey(i, j, slot)).None?
    {
      if j < |fs[i].options| {
        assert fs[i].options[j] in GetDefaultOptionsForType(t);
      }
    }
  }

  /** Typing a non-blank label clears the reason for that field's label error. */
  lemma NonBlankLabelClearsLabelError(fields: seq<Field>, i: nat, value: string)
    requires i < |fields| && !Blank(value)
    ensures ExpectedAt(fields[i := WithField(fields[i], LabelField, value)], FieldKey(i, LabelSlot)).None?
  {
  }

  class MetafieldEditor {
    var fields: seq<Field>
    var errors: ErrorMap
    var showDeleteModal: bool
    var deleteIndex: Option<int>

    /** Every message shown is non-empty, so `errors[key]` is truthy exactly when the key is present. */
    predicate Valid()
      reads this
    {
      forall k :: k in errors ==> errors[k] != ""
    }

    /** The initial state: the parsed metafield value, no errors, no pending delete. */
    constructor(initialValue: string, parse: JsonParse<Field>)
      ensures Valid()
      ensures fields == ParseMetafieldValue(initialValue, parse)
      ensures errors == map[] && !showDeleteModal && deleteIndex == None
    {
      fields := ParseMetafieldValue(initialValue, parse);
      errors := map[];
      showDeleteModal := false;
      deleteIndex := None;
    }

    /** `addField`: a new colour field at the end. */
    method AddField()
      modifies this
      requires Valid()
      ensures Valid()
      ensures fields == old(fields) + [CreateDefaultField("color")]
      ensures errors == old(errors) && showDeleteModal == old(showDeleteModal) && deleteIndex == old(deleteIndex)
    {
      fields := fields + [CreateDefaultField("color")];
    }

    /** `updateField(index, field, value)`: only that property of that field changes (a type
        change also resets its options and default value), and the error under
        `${index}-${field}` is dropped while every other error stays. */
    method UpdateField(index: nat, name: FieldName, value: string)
      modifies this
      requires Valid() && index < |fields|
      ensures Valid()
      ensures fields == old(fields)[index := WithField(old(fields)[index], name, value)]
      ensures errors == old(errors) - {FieldKey(index, SlotOf(name))}
      ensures showDeleteModal == old(showDeleteModal) && deleteIndex == old(deleteIndex)
    {
      var newFields := fields;
      newFields := newFields[index := WithField(newFields[index], name, value)];
      fields := newFields;
      var key := FieldKey(index, SlotOf(name));
      if key in errors && errors[key] != "" {
        errors := errors - {key};
      }
    }

    /** `removeField(index)`: remember the index and open the confirmation. */
    method RemoveField(index: int)
      modifies this
      requires Valid()
      ensures Valid()
      ensures deleteIndex == Some(index) && showDeleteModal
      ensures fields == old(fields) && errors == old(errors)
    {
      deleteIndex := Some(index);
      showDeleteModal := true;
    }

    /** `confirmDelete`: drop the remembered field, if any, then close the confirmation. */
    method ConfirmDelete()
      modifies this
      requires Valid()
      ensures Valid()
      ensures old(deleteIndex).Some? ==> fields == RemoveAt(old(fields), old(deleteIndex).value)
      ensures old(deleteIndex).None? ==> fields == old(fields)
      ensures !showDeleteModal && deleteIndex == None && errors == old(errors)
    {
      if deleteIndex.Some? {
        fields := RemoveAt(fields, deleteIndex.value);
      }
      showDeleteModal := false;
      deleteIndex := None;
    }

    /** `addOption(fieldIndex)`: an empty option at the end of that field's list. */
    method AddOption(fieldIndex: nat)
      modifies this
      requires Valid() && fieldIndex < |fields|
      ensures Valid()
      ensures |fields| == |old(fields)|
      ensures fields[fieldIndex] == old(fields)[fieldIndex].(options := old(fields)[fieldIndex].options + [FieldOption("", "")])
      ensures forall i :: 0 <= i < |fields| && i != fieldIndex ==> fields[i] == old(fields)[i]
      ensures errors == old(errors) && showDeleteModal == old(showDeleteModal) && deleteIndex == old(deleteIndex)
    {
      var f := fields[fieldIndex];
      fields := fields[fieldIndex := f.(options := f.options + [FieldOption("", "")])];
    }

    /** `updateOption(fieldIndex, optionIndex, field, value)`: one property of one option. */
    method UpdateOption(fieldIndex: nat, optionIndex: nat, name: OptionFieldName, value: string)
      modifies this
      requires Valid() && fieldIndex < |fields| && optionIndex < |fields[fieldIndex].options|
      ensures Valid()
      ensures |fields| == |old(fields)|
      ensures var f := old(fields)[fieldIndex];
              fields[fieldIndex] == f.(options := f.options[optionIndex := WithOption(f.options[optionIndex], name, value)])
      ensures forall i :: 0 <= i < |fields| && i != fieldIndex ==> fields[i] == old(fields)[i]
      ensures errors == old(errors) && showDeleteModal == old(showDeleteModal) && deleteIndex == old(deleteIndex)
    {
      var f := fields[fieldIndex];
      var opts := f.options[optionIndex := WithOption(f.options[optionIndex], name, value)];
      fields := fields[fieldIndex := f.(options := opts)];
    }

    /** `removeOption(fieldIndex, optionIndex)`: `splice(optionIndex, 1)` on that field's list. */
    method RemoveOption(fieldIndex: nat, optionIndex: nat)
      modifies this
      requires Valid() && fieldIndex < |fields|
      ensures Valid()
      ensures |fields| == |old(fields)|
      ensures var f := old(fields)[fieldIndex];
              fields[fieldIndex] == f.(options := RemoveAt(f.options, optionIndex))
      ensures forall i :: 0 <= i < |fields| && i != fieldIndex ==> fields[i] == old(fields)[i]
      ensures errors == old(errors) && showDeleteModal == old(showDeleteModal) && deleteIndex == old(deleteIndex)
    {
      var f := fields[fieldIndex];
      fields := fields[fieldIndex := f.(options := RemoveAt(f.options, optionIndex))];
    }

    /** `validateFields`: replace the error map by the validator's and report whether it is empty. */
    method ValidateFields() returns (ok: bool)
      modifies this
      requires Valid()
      ensures Valid()
      ensures Reports(fields, errors)
      ensures ok <==> errors == map[]
      ensures fields == old(fields) && showDeleteModal == old(showDeleteModal) && deleteIndex == old(deleteIndex)
    {
      errors := ValidateMetafieldFields(IsArray(fields));
      ok := |errors.Keys| == 0;
      MessagesNonEmpty(fields, errors);
    }

    /** `handleSave`: the fields reach `onSave` exactly when every field is valid. */
    method HandleSave() returns (saved: Option<seq<Field>>)
      modifies this
      requires Valid()
      ensures Valid()
      ensures saved.Some? <==> forall i :: 0 <= i < |fields| ==> FieldValid(fields, i)
      ensures saved.Some? ==> saved.value == fields
      ensures Reports(fields, errors)
      ensures fields == old(fields) && showDeleteModal == old(showDeleteModal) && deleteIndex == old(deleteIndex)
    {
      var ok := ValidateFields();
      NoErrorsIffAllValid(fields, errors);
      if ok {
        saved := Some(fields);
      } else {
        saved := None;
      }
    }
  }

  /** The validator writes only non-empty messages. */
  lemma MessagesNonEmpty(fields: seq<Field>, errors: ErrorMap)
    requires Reports(fields, errors)
    ensures forall k :: k in errors ==> errors[k] != ""
  {
    forall k | k in errors
      ensures errors[k] != ""
    {
      assert ExpectedAt(fields, k).Some?;
    }
  }
}
