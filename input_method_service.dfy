/**
 * The modifier state of the input method service and the small decisions it
 * takes: the shift/caps latches and their three-step toggle, the one-shot
 * modifier bits, the keypad chosen for an input field, what Enter does, and
 * which input method the emoticon key switches to. Calls into the text
 * field and the input method manager are recorded as `HostCall` values.
 */
module InputMethodService {
  import opened Common

  // android.view.KeyEvent
  const META_SHIFT_ON: bv32 := 0x1
  const META_CAPS_LOCK_ON: bv32 := 0x10_0000
  const KEYCODE_ENTER: Int32 := 66

  // android.text.InputType
  const TYPE_MASK_CLASS: bv32 := 0xf
  const TYPE_CLASS_TEXT: bv32 := 1
  const TYPE_CLASS_NUMBER: bv32 := 2
  const TYPE_CLASS_PHONE: bv32 := 3
  const TYPE_CLASS_DATETIME: bv32 := 4

  // android.view.inputmethod.EditorInfo
  const IME_MASK_ACTION: bv32 := 0xff
  const IME_ACTION_UNSPECIFIED: bv32 := 0
  const IME_ACTION_NONE: bv32 := 1
  const IME_ACTION_GO: bv32 := 2
  const IME_ACTION_SEARCH: bv32 := 3
  const IME_ACTION_SEND: bv32 := 4
  const IME_ACTION_NEXT: bv32 := 5
  const IME_ACTION_DONE: bv32 := 6
  const IME_ACTION_PREVIOUS: bv32 := 7
  const IME_FLAG_NO_ENTER_ACTION: bv32 := 0x4000_0000

  /** The parts of the focused field's `EditorInfo` that the service reads. */
  datatype EditorInfo = EditorInfo(inputType: bv32, imeOptions: bv32)

  /** The keypad views the service can show. */
  datatype Keypad = MainKeypad | NumberKeypad | SelectionKeypad | SymbolsKeypad

  datatype KeyEventAction = ActionDown | ActionUp

  /** A call the service makes on its input connection or on the input method manager. */
  datatype HostCall =
    | CommitText(text: string, newCursorPosition: int)
    | SendKeyEvent(action: KeyEventAction, keyCode: Int32, metaState: bv32)
    | PerformEditorAction(editorAction: bv32)
    | SwitchToLastInputMethod
    | SetInputMethod(id: string)

  // ---------------------------------------------------------------------------
  // Shift and caps latches

  /** The two latch fields, each holding 0 or its `KeyEvent` meta bit. */
  datatype LatchState = LatchState(shift: bv32, caps: bv32)

  const Reset := LatchState(0, 0)

  /** What the latches mean, tested in the order `performShiftToggle` tests them. */
  datatype LatchMode = Off | ShiftLatched | CapsLatched

  function Mode(l: LatchState): LatchMode {
    if l.shift == META_SHIFT_ON then ShiftLatched
    else if l.caps == META_CAPS_LOCK_ON then CapsLatched
    else Off
  }

  /** The one latch state that stands for each mode: at most one latch set, and it reads back as that mode. */
  function Canonical(m: LatchMode): (l: LatchState)
    ensures Mode(l) == m
    ensures l.shift == 0 || l.caps == 0
  {
    match m
    case Off => LatchState(0, 0)
    case ShiftLatched => LatchState(META_SHIFT_ON, 0)
    case CapsLatched => LatchState(0, META_CAPS_LOCK_ON)
  }

  /** The three-step cycle: off, then shift, then caps lock, then off again. */
  function NextMode(m: LatchMode): LatchMode {
    match m
    case Off => ShiftLatched
    case ShiftLatched => CapsLatched
    case CapsLatched => Off
  }

  /** The latches hold one of the three states the toggle and the reset produce. */
  predicate AtMostOneLatch(l: LatchState) {
    l == Canonical(Mode(l))
  }

  /**
   * `performShiftToggle` on the latch values: from any state it lands on the
   * canonical state of the next mode, so afterwards at most one latch is set.
   */
  function ShiftToggled(l: LatchState): (r: LatchState)
    ensures r == Canonical(NextMode(Mode(l)))
    ensures AtMostOneLatch(r) && (r.shift == 0 || r.caps == 0)
  {
    if l.shift == META_SHIFT_ON then LatchState(0, META_CAPS_LOCK_ON)
    else if l.caps == META_CAPS_LOCK_ON then LatchState(0, 0)
    else LatchState(META_SHIFT_ON, 0)
  }

  /** `areCharactersCapitalized` on the latch values: true exactly while shift or caps lock is latched. */
  predicate Capitalized(l: LatchState)
    ensures Capitalized(l) <==> Mode(l) != Off
  {
    l.shift == META_SHIFT_ON || l.caps == META_CAPS_LOCK_ON
  }

  /** `n` consecutive toggles. */
  function Toggled(l: LatchState, n: nat): LatchState {
    if n == 0 then l else ShiftToggled(Toggled(l, n - 1))
  }

  /** The mode after `n` toggles from the reset state. */
  function CycleMode(n: nat): LatchMode {
    if n % 3 == 0 then Off else if n % 3 == 1 then ShiftLatched else CapsLatched
  }

  /**
   * From the reset state the toggles cycle with period three: characters are
   * capitalized after one or two toggles (mod 3) and not after zero or three.
   */
  lemma {:induction false} TogglesFromReset(n: nat)
    ensures Toggled(Reset, n) == Canonical(CycleMode(n))
    ensures Capitalized(Toggled(Reset, n)) <==> n % 3 != 0
  {
    if n > 0 {
      TogglesFromReset(n - 1);
      assert NextMode(CycleMode(n - 1)) == CycleMode(n);
    }
  }

  /** Three toggles lead back to the starting mode, and to the starting state when it was canonical. */
  lemma ThreeTogglesRestore(l: LatchState)
    ensures Toggled(l, 3) == Canonical(Mode(l))
    ensures AtMostOneLatch(l) ==> Toggled(l, 3) == l
  {
    assert Toggled(l, 1) == ShiftToggled(l);
    assert Toggled(l, 2) == ShiftToggled(Toggled(l, 1));
    assert Toggled(l, 3) == ShiftToggled(Toggled(l, 2));
  }

  /**
   * The one-shot modifiers after `setModifierFlags(added)`: the bitwise or,
   * which keeps every bit that was set and sets every bit that was added.
   */
  function AddModifiers(before: bv32, added: bv32): (after: bv32)
    ensures after & before == before
    ensures after & added == added
  {
    before | added
  }

  /** Any value that holds both sets of bits holds every bit of `AddModifiers`: no other bit is set. */
  lemma AddModifiersLeast(before: bv32, added: bv32, x: bv32)
    requires x & before == before && x & added == added
    ensures AddModifiers(before, added) & x == AddModifiers(before, added)
  {
  }

  // ---------------------------------------------------------------------------
  // Decisions

  /** The keypad `onStartInputView` shows for a field of the given input type. */
  function KeypadFor(inputType: bv32): (k: Keypad)
    ensures k == NumberKeypad <==>
      inputType & TYPE_MASK_CLASS in {TYPE_CLASS_NUMBER, TYPE_CLASS_PHONE, TYPE_CLASS_DATETIME}
    ensures k != NumberKeypad ==> k == MainKeypad
  {
    var inputClass := inputType & TYPE_MASK_CLASS;
    if inputClass == TYPE_CLASS_NUMBER || inputClass == TYPE_CLASS_PHONE || inputClass == TYPE_CLASS_DATETIME then
      NumberKeypad
    else if inputClass == TYPE_CLASS_TEXT then MainKeypad
    else MainKeypad
  }

  /** `sendDownAndUpKeyEvent`: a key-down event then a key-up event with the same code and meta state. */
  function KeyPress(keyCode: Int32, metaState: bv32): (calls: seq<HostCall>)
    ensures |calls| == 2 && calls[0].SendKeyEvent? && calls[1].SendKeyEvent?
    ensures calls[0].action == ActionDown && calls[1].action == ActionUp
    ensures forall i :: 0 <= i < 2 ==> calls[i].keyCode == keyCode && calls[i].metaState == metaState
  {
    [SendKeyEvent(ActionDown, keyCode, metaState), SendKeyEvent(ActionUp, keyCode, metaState)]
  }

  /** The editor actions that Enter performs instead of typing a newline. */
  predicate IsEditorAction(action: bv32) {
    action in {IME_ACTION_GO, IME_ACTION_SEARCH, IME_ACTION_SEND, IME_ACTION_NEXT, IME_ACTION_DONE, IME_ACTION_PREVIOUS}
  }

  /**
   * `commitImeOptionsBasedEnter`: the field's editor action is performed when
   * it is one of the six real actions and the field does not ask for Enter
   * to stay a key; in every other case an Enter key press is sent with no
   * meta state, whatever the latches hold.
   */
  function EnterCalls(imeOptions: bv32): (calls: seq<HostCall>)
    ensures calls == [PerformEditorAction(imeOptions & IME_MASK_ACTION)] <==>
      IsEditorAction(imeOptions & IME_MASK_ACTION) && imeOptions & IME_FLAG_NO_ENTER_ACTION != IME_FLAG_NO_ENTER_ACTION
    ensures calls != [PerformEditorAction(imeOptions & IME_MASK_ACTION)] ==> calls == KeyPress(KEYCODE_ENTER, 0)
  {
    var imeAction := imeOptions & IME_MASK_ACTION;
    if IsEditorAction(imeAction) then
      var imeNoEnterFlag := imeOptions & IME_FLAG_NO_ENTER_ACTION;
      if imeNoEnterFlag == IME_FLAG_NO_ENTER_ACTION then KeyPress(KEYCODE_ENTER, 0)
      else [PerformEditorAction(imeAction)]
    else if imeAction == IME_ACTION_UNSPECIFIED || imeAction == IME_ACTION_NONE then KeyPress(KEYCODE_ENTER, 0)
    else KeyPress(KEYCODE_ENTER, 0)
  }

  /** With no action or the "none" action, Enter is a key press even when the no-enter flag is clear. */
  lemma EnterWithoutAction(imeOptions: bv32)
    requires imeOptions & IME_MASK_ACTION in {IME_ACTION_UNSPECIFIED, IME_ACTION_NONE}
    ensures EnterCalls(imeOptions) == KeyPress(KEYCODE_ENTER, 0)
  {
  }

  /**
   * `getSelectedEmoticonKeyboardId` as a value: the stored id if an enabled
   * input method has it, the empty string otherwise.
   */
  function SelectedEmoticonKeyboardId(storedId: string, enabledIds: seq<string>): (id: string)
    ensures id == storedId || id == ""
    ensures id != "" <==> storedId != "" && storedId in enabledIds
  {
    if storedId in enabledIds then storedId else ""
  }

  /**
   * `getSelectedEmoticonKeyboardId`: walks the enabled input methods and
   * returns the stored id at the first one that has it.
   */
  method GetSelectedEmoticonKeyboardId(storedId: string, enabledIds: seq<string>) returns (id: string)
    ensures id == SelectedEmoticonKeyboardId(storedId, enabledIds)
  {
    for i := 0 to |enabledIds|
      invariant storedId !in enabledIds[..i]
    {
      if enabledIds[i] == storedId {
        return storedId;
      }
    }
    assert enabledIds[..|enabledIds|] == enabledIds;
    return "";
  }

  /** `switchToExternalEmoticonKeyboard` for a selected id: an empty id falls back to the last input method. */
  function EmoticonSwitchCall(keyboardId: string): (call: HostCall)
    ensures call == SwitchToLastInputMethod <==> keyboardId == ""
    ensures keyboardId != "" ==> call == SetInputMethod(keyboardId)
  {
    if keyboardId == "" then SwitchToLastInputMethod else SetInputMethod(keyboardId)
  }

  /** The emoticon key opens the stored keyboard only while it is enabled. */
  lemma EmoticonKeyboardFallback(storedId: string, enabledIds: seq<string>)
    ensures EmoticonSwitchCall(SelectedEmoticonKeyboardId(storedId, enabledIds)) ==
      if storedId != "" && storedId in enabledIds then SetInputMethod(storedId) else SwitchToLastInputMethod
  {
  }

  // ---------------------------------------------------------------------------
  // The service

  class MainInputMethodService {
    var shiftLockFlag: bv32
    var capsLockFlag: bv32
    var modifierFlags: bv32
    /** `editorInfo`, a `lateinit` field: `None` until `onStartInputView` sets it. */
    var editorInfo: Option<EditorInfo>
    var currentKeypad: Keypad
    /** Every call made so far on the input connection and the input method manager, in order. */
    var hostCalls: seq<HostCall>

    function Latches(): LatchState
      reads this
    {
      LatchState(shiftLockFlag, capsLockFlag)
    }

    /** At most one latch is set, each at its meta bit: what the toggle and the reset establish. */
    ghost predicate Valid()
      reads this
    {
      AtMostOneLatch(Latches())
    }

    /** The service after creation and `onCreateInputView`, which shows the main keypad. */
    constructor ()
      ensures Valid() && Latches() == Reset && modifierFlags == 0
      ensures editorInfo == None && currentKeypad == MainKeypad && hostCalls == []
    {
      shiftLockFlag, capsLockFlag, modifierFlags := 0, 0, 0;
      editorInfo := None;
      currentKeypad := MainKeypad;
      hostCalls := [];
    }

    /** `onStartInputView`: remembers the field and shows the keypad its input class calls for. */
    method OnStartInputView(info: EditorInfo)
      modifies this
      ensures editorInfo == Some(info) && currentKeypad == KeypadFor(info.inputType)
      ensures Latches() == old(Latches()) && modifierFlags == old(modifierFlags) && hostCalls == old(hostCalls)
    {
      editorInfo := Some(info);
      currentKeypad := KeypadFor(info.inputType);
    }

    /** `onInitializeInterface`: both latches and the one-shot modifiers are cleared. */
    method OnInitializeInterface()
      modifies this
      ensures Valid() && Latches() == Reset && modifierFlags == 0
      ensures editorInfo == old(editorInfo) && currentKeypad == old(currentKeypad) && hostCalls == old(hostCalls)
    {
      SetShiftLockFlag(0);
      SetCapsLockFlag(0);
      ClearModifierFlags();
    }

    /** `setShiftLockFlag`: public, so it may store any value. */
    method SetShiftLockFlag(flag: bv32)
      modifies this
      ensures shiftLockFlag == flag && capsLockFlag == old(capsLockFlag) && modifierFlags == old(modifierFlags)
      ensures editorInfo == old(editorInfo) && currentKeypad == old(currentKeypad) && hostCalls == old(hostCalls)
    {
      shiftLockFlag := flag;
    }

    method SetCapsLockFlag(flag: bv32)
      modifies this
      ensures capsLockFlag == flag && shiftLockFlag == old(shiftLockFlag) && modifierFlags == old(modifierFlags)
      ensures editorInfo == old(editorInfo) && currentKeypad == old(currentKeypad) && hostCalls == old(hostCalls)
    {
      capsLockFlag := flag;
    }

    method ClearModifierFlags()
      modifies this
      ensures modifierFlags == 0 && Latches() == old(Latches())
      ensures editorInfo == old(editorInfo) && currentKeypad == old(currentKeypad) && hostCalls == old(hostCalls)
    {
      modifierFlags := 0;
    }

    /** `sendText`: commits the text and clears the one-shot modifiers; the latches stay. */
    method SendText(text: string)
      modifies this
      ensures hostCalls == old(hostCalls) + [CommitText(text, 1)]
      ensures modifierFlags == 0 && Latches() == old(Latches())
      ensures editorInfo == old(editorInfo) && currentKeypad == old(currentKeypad)
    {
      hostCalls := hostCalls + [CommitText(text, 1)];
      ClearModifierFlags();
    }

    method SendDownKeyEvent(keyEventCode: Int32, flags: bv32)
      modifies this
      ensures hostCalls == old(hostCalls) + [SendKeyEvent(ActionDown, keyEventCode, flags)]
      ensures Latches() == old(Latches()) && modifierFlags == old(modifierFlags)
      ensures editorInfo == old(editorInfo) && currentKeypad == old(currentKeypad)
    {
      hostCalls := hostCalls + [SendKeyEvent(ActionDown, keyEventCode, flags)];
    }

    method SendUpKeyEvent(keyEventCode: Int32, flags: bv32)
      modifies this
      ensures hostCalls == old(hostCalls) + [SendKeyEvent(ActionUp, keyEventCode, flags)]
      ensures Latches() == old(Latches()) && modifierFlags == old(modifierFlags)
      ensures editorInfo == old(editorInfo) && currentKeypad == old(currentKeypad)
    {
      hostCalls := hostCalls + [SendKeyEvent(ActionUp, keyEventCode, flags)];
    }

    /** `sendDownAndUpKeyEvent`: sends exactly the given flags and leaves the modifier state alone. */
    method SendDownAndUpKeyEvent(keyEventCode: Int32, flags: bv32)
      modifies this
      ensures hostCalls == old(hostCalls) + KeyPress(keyEventCode, flags)
      ensures Latches() == old(Latches()) && modifierFlags == old(modifierFlags)
      ensures editorInfo == old(editorInfo) && currentKeypad == old(currentKeypad)
    {
      SendDownKeyEvent(keyEventCode, flags);
      SendUpKeyEvent(keyEventCode, flags);
    }

    /**
     * `sendKey`: presses the key with the latches, the pending one-shot
     * modifiers and the given flags combined, then clears the one-shot
     * modifiers; the latches stay.
     */
    method SendKey(keyEventCode: Int32, flags: bv32)
      modifies this
      ensures hostCalls == old(hostCalls) +
        KeyPress(keyEventCode, old(shiftLockFlag) | old(capsLockFlag) | old(modifierFlags) | flags)
      ensures modifierFlags == 0 && Latches() == old(Latches())
      ensures editorInfo == old(editorInfo) && currentKeypad == old(currentKeypad)
    {
      SendDownAndUpKeyEvent(keyEventCode, shiftLockFlag | capsLockFlag | modifierFlags | flags);
      ClearModifierFlags();
    }

    /** `performShiftToggle`: one step of the off, shift, caps cycle. */
    method PerformShiftToggle()
      modifies this
      ensures Latches() == ShiftToggled(old(Latches())) && Valid()
      ensures modifierFlags == old(modifierFlags)
      ensures editorInfo == old(editorInfo) && currentKeypad == old(currentKeypad) && hostCalls == old(hostCalls)
    {
      if shiftLockFlag == META_SHIFT_ON {
        SetShiftLockFlag(0);
        SetCapsLockFlag(META_CAPS_LOCK_ON);
      } else if capsLockFlag == META_CAPS_LOCK_ON {
        SetShiftLockFlag(0);
        SetCapsLockFlag(0);
      } else {
        SetShiftLockFlag(META_SHIFT_ON);
        SetCapsLockFlag(0);
      }
    }

    /** `areCharactersCapitalized`: true exactly while a latch is on. */
    method AreCharactersCapitalized() returns (capitalized: bool)
      ensures capitalized <==> Mode(Latches()) != Off
    {
      capitalized := Capitalized(Latches());
    }

    /** `setModifierFlags`: adds bits to the one-shot modifiers; none is removed and the latches stay. */
    method SetModifierFlags(newModifierFlags: bv32)
      modifies this
      ensures modifierFlags == AddModifiers(old(modifierFlags), newModifierFlags)
      ensures Latches() == old(Latches())
      ensures editorInfo == old(editorInfo) && currentKeypad == old(currentKeypad) && hostCalls == old(hostCalls)
    {
      modifierFlags := modifierFlags | newModifierFlags;
    }

    /** `commitImeOptionsBasedEnter`, which needs `onStartInputView` to have set `editorInfo`. */
    method CommitImeOptionsBasedEnter()
      requires editorInfo.Some?
      modifies this
      ensures hostCalls == old(hostCalls) + EnterCalls(old(editorInfo).value.imeOptions)
      ensures Latches() == old(Latches()) && modifierFlags == old(modifierFlags)
      ensures editorInfo == old(editorInfo) && currentKeypad == old(currentKeypad)
    {
      var imeOptions := editorInfo.value.imeOptions;
      var imeAction := imeOptions & IME_MASK_ACTION;
      if IsEditorAction(imeAction) {
        var imeNoEnterFlag := imeOptions & IME_FLAG_NO_ENTER_ACTION;
        if imeNoEnterFlag == IME_FLAG_NO_ENTER_ACTION {
          SendDownAndUpKeyEvent(KEYCODE_ENTER, 0);
        } else {
          hostCalls := hostCalls + [PerformEditorAction(imeAction)];
        }
      } else {
        SendDownAndUpKeyEvent(KEYCODE_ENTER, 0);
      }
    }

    /**
     * `switchToExternalEmoticonKeyboard`, given the stored preference (empty
     * when unset) and the ids of the enabled input methods.
     */
    method SwitchToExternalEmoticonKeyboard(storedId: string, enabledIds: seq<string>)
      modifies this
      ensures hostCalls == old(hostCalls) + [EmoticonSwitchCall(SelectedEmoticonKeyboardId(storedId, enabledIds))]
      ensures Latches() == old(Latches()) && modifierFlags == old(modifierFlags)
      ensures editorInfo == old(editorInfo) && currentKeypad == old(currentKeypad)
    {
      var keyboardId := GetSelectedEmoticonKeyboardId(storedId, enabledIds);
      if keyboardId == "" {
        hostCalls := hostCalls + [SwitchToLastInputMethod];
      } else {
        hostCalls := hostCalls + [SetInputMethod(keyboardId)];
      }
    }
  }
}
