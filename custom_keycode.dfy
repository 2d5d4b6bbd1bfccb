/**
 * The closed set of meta keys a layout can bind. Each carries a negative
 * sentinel code, so that it can travel where a platform key code is
 * expected without being mistaken for one.
 */
module CustomKeycodes {
  import opened Common

  datatype CustomKeycode =
    | MoveCurrentEndPointLeft
    | MoveCurrentEndPointRight
    | MoveCurrentEndPointUp
    | MoveCurrentEndPointDown
    | SelectionStart
    | SelectAll
    | ToggleSelectionAnchor
    | ShiftToggle
    | SwitchToMainKeypad
    | SwitchToNumberKeypad
    | SwitchToSymbolsKeypad
    | SwitchToSelectionKeypad
    | SwitchToEmoticonKeyboard
    | HideKeyboard

  /** The variants in declaration order, the order in which `EnumSet.allOf` yields them. */
  const AllCustomKeycodes: seq<CustomKeycode> := [
    MoveCurrentEndPointLeft, MoveCurrentEndPointRight, MoveCurrentEndPointUp, MoveCurrentEndPointDown,
    SelectionStart, SelectAll, ToggleSelectionAnchor, ShiftToggle,
    SwitchToMainKeypad, SwitchToNumberKeypad, SwitchToSymbolsKeypad, SwitchToSelectionKeypad,
    SwitchToEmoticonKeyboard, HideKeyboard]

  /** `getKeyCode`: the sentinel each variant is declared with. */
  function KeyCode(k: CustomKeycode): (code: Int32)
    ensures -14 <= code <= -1
  {
    match k
    case MoveCurrentEndPointLeft => -1
    case MoveCurrentEndPointRight => -2
    case MoveCurrentEndPointUp => -3
    case MoveCurrentEndPointDown => -4
    case SelectionStart => -5
    case SelectAll => -6
    case ToggleSelectionAnchor => -7
    case ShiftToggle => -8
    case SwitchToMainKeypad => -9
    case SwitchToNumberKeypad => -10
    case SwitchToSymbolsKeypad => -11
    case SwitchToSelectionKeypad => -12
    case SwitchToEmoticonKeyboard => -13
    case HideKeyboard => -14
  }

  /**
   * `fromIntValue`: the variant whose code is `value`, or `None` (Kotlin's
   * null) for every other integer.
   */
  function FromIntValue(value: int): (r: Option<CustomKeycode>)
    ensures r.Some? <==> -14 <= value <= -1
    ensures r.Some? ==> KeyCode(r.value) == value
  {
    match value
    case -1 => Some(MoveCurrentEndPointLeft)
    case -2 => Some(MoveCurrentEndPointRight)
    case -3 => Some(MoveCurrentEndPointUp)
    case -4 => Some(MoveCurrentEndPointDown)
    case -5 => Some(SelectionStart)
    case -6 => Some(SelectAll)
    case -7 => Some(ToggleSelectionAnchor)
    case -8 => Some(ShiftToggle)
    case -9 => Some(SwitchToMainKeypad)
    case -10 => Some(SwitchToNumberKeypad)
    case -11 => Some(SwitchToSymbolsKeypad)
    case -12 => Some(SwitchToSelectionKeypad)
    case -13 => Some(SwitchToEmoticonKeyboard)
    case -14 => Some(HideKeyboard)
    case _ => None
  }

  /** There are fourteen variants, coded -1 through -14 in declaration order, and no others. */
  lemma DeclarationOrder()
    ensures |AllCustomKeycodes| == 14
    ensures forall i :: 0 <= i < |AllCustomKeycodes| ==> KeyCode(AllCustomKeycodes[i]) == -(i + 1)
    ensures forall k: CustomKeycode :: k in AllCustomKeycodes
  {
    forall k: CustomKeycode ensures k in AllCustomKeycodes {
      assert AllCustomKeycodes[-KeyCode(k) - 1] == k;
    }
  }

  /** Looking up a variant's own code gives the variant back. */
  lemma FromIntValueOfKeyCode(k: CustomKeycode)
    ensures FromIntValue(KeyCode(k)) == Some(k)
  {
  }

  /** Distinct variants have distinct codes. */
  lemma {:induction false} KeyCodeInjective(a: CustomKeycode, b: CustomKeycode)
    ensures KeyCode(a) == KeyCode(b) ==> a == b
  {
    FromIntValueOfKeyCode(a);
    FromIntValueOfKeyCode(b);
  }

  /** No custom code equals a platform key code, which are never negative. */
  lemma NoPlatformCollision(k: CustomKeycode, platformCode: int)
    requires platformCode >= 0
    ensures KeyCode(k) != platformCode && FromIntValue(platformCode) == None
  {
  }

  /**
   * The companion's `init`: fills the reverse map by walking every variant in
   * declaration order and storing it under its own code. The result is the
   * graph of `FromIntValue`.
   */
  method BuildKeyCodeMap() returns (m: map<int, CustomKeycode>)
    ensures forall v :: v in m <==> FromIntValue(v).Some?
    ensures forall v :: v in m ==> FromIntValue(v) == Some(m[v])
  {
    DeclarationOrder();
    m := map[];
    for i := 0 to |AllCustomKeycodes|
      invariant forall v :: v in m <==> -i <= v <= -1
      invariant forall v :: v in m ==> KeyCode(m[v]) == v
    {
      var k := AllCustomKeycodes[i];
      m := m[KeyCode(k) := k];
    }
    forall v | v in m ensures FromIntValue(v) == Some(m[v]) {
      FromIntValueOfKeyCode(m[v]);
    }
  }
}
