/** Keys of the error objects the editors build. The source renders them as strings
    (`general`, `${i}-${name}` and `${i}-option-${j}-${name}`); they are kept here as values
    so that two keys are equal exactly when their parts are. */
module ErrorKeys {

  /** The `${name}` part of a key: the name of the checked property. */
  datatype Slot = LabelSlot | KeySlot | TypeSlot | DefaultValueSlot | OptionsSlot | ValueSlot | HexSlot | PriceSlot

  datatype ErrorKey =
    | General
    | FieldKey(index: nat, slot: Slot)
    | OptionKey(index: nat, option: nat, slot: Slot)

  type ErrorMap = map<ErrorKey, string>

  /** The property name a slot stands for. */
  function SlotName(s: Slot): (name: string)
    ensures name != ""
  {
    match s
    case LabelSlot => "label"
    case KeySlot => "key"
    case TypeSlot => "type"
    case DefaultValueSlot => "defaultValue"
    case OptionsSlot => "options"
    case ValueSlot => "value"
    case HexSlot => "hex"
    case PriceSlot => "price"
  }

  /** The position, in the edited list, of the entry an error key belongs to. */
  function Owner(k: ErrorKey): nat {
    match k
    case General => 0
    case FieldKey(i, _) => i
    case OptionKey(i, _, _) => i
  }
}
