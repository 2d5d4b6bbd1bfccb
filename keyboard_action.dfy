/**
 * The immutable action record that a layout associates with a movement
 * sequence, and the `UNSPECIFIED` action used where nothing is mapped.
 */
module KeyboardActions {
  import opened Common

  /**
   * The kind of an action. Only `INPUT_KEY` is named by the action record's
   * file; the other constants of the enum are kept apart by their names.
   */
  datatype KeyboardActionType = InputKey | OtherActionType(name: OtherActionTypeName)

  /** The name of an action-type constant other than `INPUT_KEY`. */
  type OtherActionTypeName = s: string | s != "INPUT_KEY"

  /** The layer an action is defined under; only `FIRST` is named by the record's file. */
  datatype LayerLevel = First | OtherLayer(name: OtherLayerName)

  /** The name of a layer constant other than `FIRST`. */
  type OtherLayerName = s: string | s != "FIRST"

  /**
   * The Kotlin data class: six fields, structural equality, and
   * `capsLockText` defaulting to the empty string when a caller omits it.
   */
  datatype KeyboardAction = KeyboardAction(
    keyboardActionType: KeyboardActionType,
    text: string,
    capsLockText: string := "",
    keyEventCode: Int32,
    keyFlags: Int32,
    layer: LayerLevel)

  /** `KeyboardAction.UNSPECIFIED`, built with `capsLockText` omitted. */
  const UNSPECIFIED: KeyboardAction :=
    KeyboardAction(keyboardActionType := InputKey, text := "", keyEventCode := 0, keyFlags := 0, layer := First)

  lemma UnspecifiedFields()
    ensures UNSPECIFIED.keyboardActionType == InputKey && UNSPECIFIED.text == ""
    ensures UNSPECIFIED.capsLockText == ""
    ensures UNSPECIFIED.keyEventCode == 0 && UNSPECIFIED.keyFlags == 0 && UNSPECIFIED.layer == First
  {
  }

  /** Omitting `capsLockText` always gives the empty string. */
  lemma CapsLockTextDefault(t: KeyboardActionType, text: string, code: Int32, flags: Int32, layer: LayerLevel)
    ensures KeyboardAction(keyboardActionType := t, text := text, keyEventCode := code, keyFlags := flags, layer := layer).capsLockText == ""
  {
  }

  /** Equality of actions is equality of all six fields. */
  lemma ActionEquality(a: KeyboardAction, b: KeyboardAction)
    ensures a == b <==>
      && a.keyboardActionType == b.keyboardActionType
      && a.text == b.text
      && a.capsLockText == b.capsLockText
      && a.keyEventCode == b.keyEventCode
      && a.keyFlags == b.keyFlags
      && a.layer == b.layer
  {
  }
}
