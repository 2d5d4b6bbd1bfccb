# 8VIM input method: modifier latches, meta keycodes, layout preferences

This project is a Dafny model of the parts of the 8VIM gesture keyboard that
can be taken apart from the Android code around them:

- **The input method service's modifier state** (`input_method_service.dfy`,
  module `InputMethodService`). The service keeps three integer fields: the
  shift latch, the caps-lock latch and the one-shot modifier bits. They are
  fields of the class `MainInputMethodService`. Its methods change them as
  the Kotlin methods do: the three-step shift toggle (off, shift, caps lock,
  off), or-ing in one-shot modifiers, clearing those after text or a key is
  sent, and the reset in `onInitializeInterface`. The calls the service makes
  on the input connection and the input method manager are appended to a log
  field, `hostCalls`, as `HostCall` values. The decisions are pure
  functions:
  - which keypad a field's input class calls for;
  - what Enter does for the field's `imeOptions`;
  - which input method the emoticon key switches to.

  Flags are `bv32`, which is Kotlin's `Int` under `or` and `and`. The Android
  constants have their platform values: `META_SHIFT_ON = 0x1`,
  `META_CAPS_LOCK_ON = 0x100000`, `IME_MASK_ACTION = 0xff`,
  `IME_FLAG_NO_ENTER_ACTION = 0x40000000`, `KEYCODE_ENTER = 66`,
  `TYPE_MASK_CLASS = 0xf`, and input classes 1 to 4.
- **`CustomKeycode`** (`custom_keycode.dfy`, module `CustomKeycodes`): the 14
  meta keys with their codes -1 to -14, the total reverse lookup
  `FromIntValue`, and the companion's map-building loop, proved to build
  exactly the graph of `FromIntValue`.
- **Layouts** (`layout.dfy`, module `Layouts`):
  - the tagged-string preference codec `LayoutSerDe` (`"e"` or `"c"` followed
    by the path), with its round trip and its partiality;
  - reading a layout back from the preferences, falling back to a default;
  - `loadKeyboardData` and its name-defaulting rule;
  - the selection of bundled layouts in `rememberEmbeddedLayouts`: a filter
    followed by puts into a map, where the last put wins.
- **`KeyboardAction`** (`keyboard_action.dfy`, module `KeyboardActions`): the
  immutable action record, the default value of `capsLockText`, and
  `UNSPECIFIED`. Action types and layers other than `INPUT_KEY` and `FIRST`
  are kept by name; the name of the modelled constant is excluded, so each
  value has one representation.

`common.dfy` holds `Option` (Kotlin's nullable values), `Result` (Arrow's
`Either`) and `Int32`.

Where the code and its intent differ:
- The companion `init` of `CustomKeycode` does not compile as written. It
  stores under a top-level name `customKeycode` rather than the loop
  variable, and it reassigns a `val`. The model follows the evident intent:
  each variant is stored under its own code (`BuildKeyCodeMap`).
- The bit diagram above `commitImeOptionsBasedEnter` draws the action mask
  four bits wide. The platform constant `IME_MASK_ACTION` is `0xff`, and the
  model uses that value. So `imeOptions = 0x12`, for example, is not the GO
  action; Enter sends a key press for it.

## Model

| member | source | states |
|---|---|---|
| `InputMethodService.ShiftToggled` | 8vim/src/main/java/inc/flide/vim8/MainInputMethodService.kt:215-233 | from any latch state the toggle lands on the canonical state of the next mode in the cycle off, shift, caps lock, off (the shift test is made first); afterwards at most one latch is set |
| `InputMethodService.ThreeTogglesRestore` | 8vim/src/main/java/inc/flide/vim8/MainInputMethodService.kt:215-233 | three toggles lead back to the starting mode, and to the very starting state when at most one latch was set at its meta bit |
| `InputMethodService.TogglesFromReset` | 8vim/src/main/java/inc/flide/vim8/MainInputMethodService.kt:215-237 | from the reset state, n toggles give off, shift, caps lock for n mod 3 = 0, 1, 2; characters are capitalized exactly when n mod 3 is not 0 |
| `InputMethodService.Capitalized` | 8vim/src/main/java/inc/flide/vim8/MainInputMethodService.kt:235-237 | `areCharactersCapitalized` on the latch values holds exactly when the latch mode is shift or caps lock |
| `InputMethodService.Canonical` | 8vim/src/main/java/inc/flide/vim8/MainInputMethodService.kt:215-233 | the state each mode stands for reads back as that mode and has at most one latch set |
| `InputMethodService.KeyPress` | 8vim/src/main/java/inc/flide/vim8/MainInputMethodService.kt:131-134 | a key press is exactly two key events, down then up, both with the given key code and meta state |
| `InputMethodService.AddModifiers` | 8vim/src/main/java/inc/flide/vim8/MainInputMethodService.kt:239-241 | after adding one-shot modifiers, every bit set before is still set and every added bit is set |
| `InputMethodService.AddModifiersLeast` | 8vim/src/main/java/inc/flide/vim8/MainInputMethodService.kt:239-241 | no other bit is set: any value holding both sets of bits holds all bits of the result |
| `InputMethodService.KeypadFor` | 8vim/src/main/java/inc/flide/vim8/MainInputMethodService.kt:77-81 | the number keypad is chosen exactly for input classes NUMBER, PHONE and DATETIME; every other class gets the main keypad |
| `InputMethodService.EnterCalls` | 8vim/src/main/java/inc/flide/vim8/MainInputMethodService.kt:284-298 | Enter performs the field's editor action exactly when that action is GO, SEARCH, SEND, NEXT, DONE or PREVIOUS and IME_FLAG_NO_ENTER_ACTION is clear; otherwise it is an Enter key down and up with meta state 0 |
| `InputMethodService.EnterWithoutAction` | 8vim/src/main/java/inc/flide/vim8/MainInputMethodService.kt:295 | with action UNSPECIFIED or NONE, Enter is a key press whatever the flags |
| `InputMethodService.SelectedEmoticonKeyboardId` | 8vim/src/main/java/inc/flide/vim8/MainInputMethodService.kt:147-160 | the result is the stored id or empty, and it is non-empty exactly when the stored id is non-empty and among the enabled input methods |
| `InputMethodService.GetSelectedEmoticonKeyboardId` | 8vim/src/main/java/inc/flide/vim8/MainInputMethodService.kt:154-159 | the loop with early return over the enabled list computes `SelectedEmoticonKeyboardId` |
| `InputMethodService.EmoticonSwitchCall` | 8vim/src/main/java/inc/flide/vim8/MainInputMethodService.kt:140-144 | an empty id switches to the last input method; any other id sets that input method |
| `InputMethodService.EmoticonKeyboardFallback` | 8vim/src/main/java/inc/flide/vim8/MainInputMethodService.kt:136-160 | the emoticon key opens the stored keyboard only while it is enabled, and otherwise falls back to the last input method |
| `InputMethodService.MainInputMethodService.constructor` | 8vim/src/main/java/inc/flide/vim8/MainInputMethodService.kt:56-63 | after creation and `onCreateInputView`, the service has both latches and the one-shot modifiers at 0, no editor info, the main keypad and no host calls |
| `InputMethodService.MainInputMethodService.OnStartInputView` | 8vim/src/main/java/inc/flide/vim8/MainInputMethodService.kt:74-82 | stores the editor info and shows `KeypadFor(inputType)`; flags and host calls unchanged |
| `InputMethodService.MainInputMethodService.OnInitializeInterface` | 8vim/src/main/java/inc/flide/vim8/MainInputMethodService.kt:84-90 | all three flag fields are 0 afterwards, and the latch invariant holds |
| `InputMethodService.MainInputMethodService.SetShiftLockFlag` | 8vim/src/main/java/inc/flide/vim8/MainInputMethodService.kt:247-252 | stores any value in the shift latch; nothing else changes |
| `InputMethodService.MainInputMethodService.SetCapsLockFlag` | 8vim/src/main/java/inc/flide/vim8/MainInputMethodService.kt:258-260 | stores any value in the caps latch; nothing else changes |
| `InputMethodService.MainInputMethodService.ClearModifierFlags` | 8vim/src/main/java/inc/flide/vim8/MainInputMethodService.kt:101-103 | the one-shot modifiers are 0; the latches are unchanged |
| `InputMethodService.MainInputMethodService.SendText` | 8vim/src/main/java/inc/flide/vim8/MainInputMethodService.kt:96-99 | one commit of the text at cursor position 1; the one-shot modifiers are cleared and the latches stay |
| `InputMethodService.MainInputMethodService.SendDownKeyEvent` | 8vim/src/main/java/inc/flide/vim8/MainInputMethodService.kt:105-116 | one key-down event with the given code and meta state; the flag fields are unchanged |
| `InputMethodService.MainInputMethodService.SendUpKeyEvent` | 8vim/src/main/java/inc/flide/vim8/MainInputMethodService.kt:118-129 | one key-up event with the given code and meta state; the flag fields are unchanged |
| `InputMethodService.MainInputMethodService.SendDownAndUpKeyEvent` | 8vim/src/main/java/inc/flide/vim8/MainInputMethodService.kt:131-134 | a down event then an up event with exactly the given flags; the modifier state is left alone |
| `InputMethodService.MainInputMethodService.SendKey` | 8vim/src/main/java/inc/flide/vim8/MainInputMethodService.kt:162-165 | down then up with meta state shift or caps or one-shot modifiers or flags, all taken before the call; afterwards the one-shot modifiers are 0 and the latches unchanged |
| `InputMethodService.MainInputMethodService.PerformShiftToggle` | 8vim/src/main/java/inc/flide/vim8/MainInputMethodService.kt:215-233 | the latches become `ShiftToggled` of the old latches; one-shot modifiers and host calls unchanged |
| `InputMethodService.MainInputMethodService.AreCharactersCapitalized` | 8vim/src/main/java/inc/flide/vim8/MainInputMethodService.kt:235-237 | true exactly when the latch mode is shift or caps lock |
| `InputMethodService.MainInputMethodService.SetModifierFlags` | 8vim/src/main/java/inc/flide/vim8/MainInputMethodService.kt:239-241 | the one-shot modifiers become `AddModifiers(old, added)`; the latches are untouched |
| `InputMethodService.MainInputMethodService.CommitImeOptionsBasedEnter` | 8vim/src/main/java/inc/flide/vim8/MainInputMethodService.kt:284-298 | appends `EnterCalls(imeOptions)`; it needs the editor info that `onStartInputView` sets, and leaves every flag field unchanged |
| `InputMethodService.MainInputMethodService.SwitchToExternalEmoticonKeyboard` | 8vim/src/main/java/inc/flide/vim8/MainInputMethodService.kt:136-145 | appends the switch call for the selected emoticon keyboard id |
| `CustomKeycodes.KeyCode` | 8vim/src/main/java/inc/flide/vim8/structures/CustomKeycode.kt:96-98 | every code is between -14 and -1, so strictly negative |
| `CustomKeycodes.DeclarationOrder` | 8vim/src/main/java/inc/flide/vim8/structures/CustomKeycode.kt:80 | exactly 14 variants, coded -1 through -14 in declaration order, and every variant is in that list |
| `CustomKeycodes.FromIntValue` | 8vim/src/main/java/inc/flide/vim8/structures/CustomKeycode.kt:84-86 | a variant is found exactly for values in [-14, -1], and the variant found has that value as its code |
| `CustomKeycodes.FromIntValueOfKeyCode` | 8vim/src/main/java/inc/flide/vim8/structures/CustomKeycode.kt:84-93 | looking up a variant's code gives that variant |
| `CustomKeycodes.KeyCodeInjective` | 8vim/src/main/java/inc/flide/vim8/structures/CustomKeycode.kt:79-80 | distinct variants have distinct codes |
| `CustomKeycodes.NoPlatformCollision` | 8vim/src/main/java/inc/flide/vim8/structures/CustomKeycode.kt:80 | no custom code equals a non-negative platform key code, and such a code looks up to null |
| `CustomKeycodes.BuildKeyCodeMap` | 8vim/src/main/java/inc/flide/vim8/structures/CustomKeycode.kt:88-93 | the map built by walking every variant holds exactly the codes `FromIntValue` accepts, each mapped to the variant `FromIntValue` gives |
| `Layouts.LayoutEquality` | 8vim/src/main/kotlin/inc/flide/vim8/models/Layout.kt:149-158 | two custom layouts are equal exactly when their paths are, likewise for embedded layouts, and the two kinds are never equal |
| `Layouts.EncodedValue` | 8vim/src/main/kotlin/inc/flide/vim8/models/Layout.kt:97-101 | the encoding has tag `e` for an embedded layout and `c` for a custom one, followed by the whole path |
| `Layouts.Deserialize` | 8vim/src/main/kotlin/inc/flide/vim8/models/Layout.kt:115-126 | decoding succeeds exactly for a string of length at least 2 whose first character is `e` or `c`; null, shorter strings and other tags give null; a decoded layout re-encodes to the input string |
| `Layouts.SerDeRoundTrip` | 8vim/src/main/kotlin/inc/flide/vim8/models/Layout.kt:96-126 | decoding an encoded layout gives it back when its path is non-empty; an empty path encodes to one character, which decodes to null |
| `Layouts.GetString` | 8vim/src/main/kotlin/inc/flide/vim8/models/Layout.kt:111 | a string is read exactly when one is stored under the key; a missing key or a value of another type reads as null |
| `Layouts.Serialize` | 8vim/src/main/kotlin/inc/flide/vim8/models/Layout.kt:96-104 | the key now holds the encoded layout; every other key is unchanged |
| `Layouts.DeserializePreference` | 8vim/src/main/kotlin/inc/flide/vim8/models/Layout.kt:106-113 | the stored layout when it can be read and decoded, otherwise `default` |
| `Layouts.PreferenceRoundTrip` | 8vim/src/main/kotlin/inc/flide/vim8/models/Layout.kt:96-113 | a layout written to the preferences is read back, or `default` when its path is empty |
| `Layouts.LoadKeyboardData` | 8vim/src/main/kotlin/inc/flide/vim8/models/Layout.kt:69-93 | the first failure of opening or parsing is the result; an embedded layout's empty name becomes the locale display name of its path and a non-empty name is kept; custom-layout data is returned unchanged; the layer count is never changed |
| `Layouts.KeptEntry` | 8vim/src/main/kotlin/inc/flide/vim8/models/Layout.kt:46-57 | a raw field gives an entry exactly when its name is an ISO language code, its layout loads, and the data has a layer; the entry is the embedded layout under its data's description |
| `Layouts.LoadEmbedded` | 8vim/src/main/kotlin/inc/flide/vim8/models/Layout.kt:48-50 | a bundled layout loads exactly when its raw resource opens and parses; the layer count is kept and an empty name becomes the locale display name |
| `Layouts.EmbeddedLayouts` | 8vim/src/main/kotlin/inc/flide/vim8/models/Layout.kt:44-59 | every value of the map is an embedded layout named by an ISO language code, and the last raw field, when kept, is in the map under its key |
| `Layouts.EmbeddedLayoutsSound` | 8vim/src/main/kotlin/inc/flide/vim8/models/Layout.kt:44-59 | every entry of the map was contributed by some raw field kept under that key |
| `Layouts.EmbeddedLayoutsAreEmbedded` | 8vim/src/main/kotlin/inc/flide/vim8/models/Layout.kt:45-59 | every value is an embedded layout whose path is an ISO language code among the raw field names |
| `Layouts.EmbeddedLayoutsLastWins` | 8vim/src/main/kotlin/inc/flide/vim8/models/Layout.kt:59 | a kept field is in the map under its key unless a later field is kept under the same key: a later duplicate overwrites an earlier one |
| `Layouts.RememberEmbeddedLayouts` | 8vim/src/main/kotlin/inc/flide/vim8/models/Layout.kt:41-62 | the loop of filter, load and put builds exactly `EmbeddedLayouts` of the raw fields |
| `KeyboardActions.UnspecifiedFields` | 8vim/src/main/kotlin/inc/flide/vim8/ime/layout/models/KeyboardAction.kt:17-23 | `UNSPECIFIED` has type INPUT_KEY, empty text, empty caps-lock text, key code 0, flags 0 and layer FIRST |
| `KeyboardActions.CapsLockTextDefault` | 8vim/src/main/kotlin/inc/flide/vim8/ime/layout/models/KeyboardAction.kt:11 | an action built without `capsLockText` has the empty caps-lock text |
| `KeyboardActions.ActionEquality` | 8vim/src/main/kotlin/inc/flide/vim8/ime/layout/models/KeyboardAction.kt:8-15 | two actions are equal exactly when all six fields are equal |

## Left out

- The gesture sector classifier, the movement-sequence accumulator and the action resolver are not part of this model. None of the modelled files contains them.
- Input connection and input method manager calls: each is recorded as a `HostCall`, and nothing models their effect on the text field. `delete`, `switchAnchor`, `cut`, `copy`, `paste`, `hideKeyboard` and `buildKeyboardActionMap` are outside what is modelled.
- Views: `setCurrentKeypadView` becomes the `currentKeypad` field. View invalidation (`setCurrentKeypadView`, `setShiftLockFlag`) is not modelled. Neither are view creation in `onCreateInputView` or the `switchTo*Keypad` setters.
- The `inputConnection` field: it is `lateinit` and is bound in `onStartInput`, `onBindInput` and `onInitializeInterface`. The model takes it as always bound. `editorInfo` is `lateinit` too; it is modelled as an `Option`, and `CommitImeOptionsBasedEnter` requires it to be set.
- Timestamps: the `SystemClock.uptimeMillis()` times of key events are not modelled. The repeat count is always 0 and is not stored.
- `SendText` takes a string. Kotlin's nullable `text` argument is not modelled.
- Preferences: the emoticon keyboard preference (read with default `""`) and the enabled input method ids are parameters of `SwitchToExternalEmoticonKeyboard`.
- `MainInputMethodService.Valid` (at most one latch set, each at its meta bit) is re-established by `PerformShiftToggle` and `OnInitializeInterface`. It is not an invariant of every method, because the public `setShiftLockFlag` can store any value.
- AddModifiers: its own contract states only that old and added bits are set. That no other bit is set is stated separately by `AddModifiersLeast`, because one contract with both facts is too expensive for the solver.
- Serialize: it writes the encoded value straight into the preference map. The source writes through a `SharedPreferences.Editor`, whose change is visible only after the caller commits or applies it; `PreferenceRoundTrip` holds under that assumption.
- Deserialize: it takes an optional string. The source decodes `value?.toString()` of a value of any type; the model takes that string as given.
- EmoticonSwitchCall: the `HostCall` it returns does not carry the window token, and the `window.window!!` dereference, which throws when the dialog has no window, is not modelled.
- `Uri.parse`: a custom layout keeps its path as a string, and `Uri` equality becomes string equality. `hashCode` is not modelled.
- `serialize`'s `else -> null` branch: it is for `Layout` implementations other than the two shown, and the model's `Layout` type is closed.
- The `TreeMap` of `rememberEmbeddedLayouts`: keys and values are modelled, its iteration order (sorted by key) is not.
- Opaque parameters of the `LayoutContext`:
  - the ISO language set;
  - opening a raw resource and parsing a layout stream;
  - the title-cased locale display name;
  - `KeyboardData.toString`.

  The reflection order of `R.raw` fields is simply the order of the given list. The Compose `remember` caching is not modelled.
- `KeyboardData`: the model keeps only `totalLayers` and the info name.
- `KeyboardActionType` and `LayerLevel`: of these enums, only `INPUT_KEY` and `FIRST` appear in the modelled files. The other constants are represented by their names.
- `SettingsActivity.kt`, `LaunchUtils.kt` and `InputMethodViewHelper.kt` are not modelled: UI, intents and floating-point view sizing.
