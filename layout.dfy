/**
 * Keyboard layouts: where a layout comes from (a raw resource bundled with
 * the app, or a document the user picked), how the chosen layout is stored
 * in the preferences as a tagged string, how a layout's data is loaded, and
 * which bundled layouts are offered to the user.
 */
module Layouts {
  import opened Common

  /**
   * A layout: an embedded one names a raw resource, a custom one holds a
   * document URI. The URI is modelled by its string form, so two custom
   * layouts are equal exactly when their paths are, as `CustomLayout.equals`
   * decides, and a layout of one kind never equals one of the other kind.
   */
  datatype Layout = EmbeddedLayout(path: string) | CustomLayout(path: string)

  lemma LayoutEquality(a: string, b: string)
    ensures CustomLayout(a) == CustomLayout(b) <==> a == b
    ensures EmbeddedLayout(a) == EmbeddedLayout(b) <==> a == b
    ensures EmbeddedLayout(a) != CustomLayout(b)
  {
  }

  // ---------------------------------------------------------------------------
  // LayoutSerDe

  /** The string `serialize` stores: a one-letter tag followed by the path. */
  function EncodedValue(value: Layout): (s: string)
    ensures |s| == |value.path| + 1 && s[1..] == value.path
    ensures s[0] == 'e' <==> value.EmbeddedLayout?
    ensures s[0] == 'c' <==> value.CustomLayout?
  {
    match value
    case EmbeddedLayout(p) => "e" + p
    case CustomLayout(p) => "c" + p
  }

  /**
   * `deserialize(value)`: a stored string of at least two characters whose
   * tag is known decodes to a layout; null, a shorter string or an unknown
   * tag decodes to null. Whatever decodes re-encodes to the same string.
   */
  function Deserialize(value: Option<string>): (r: Option<Layout>)
    ensures r.Some? <==> value.Some? && |value.value| >= 2 && value.value[0] in "ec"
    ensures r.Some? ==> EncodedValue(r.value) == value.value
  {
    match value
    case None => None
    case Some(s) =>
      if |s| >= 2 then
        var path := s[1..];
        if s[0] == 'e' then Some(EmbeddedLayout(path))
        else if s[0] == 'c' then Some(CustomLayout(path))
        else None
      else None
  }

  /**
   * Decoding an encoded layout gives it back unless its path is empty: an
   * empty path encodes to the one-letter tag alone, which decodes to null.
   */
  lemma {:induction false} SerDeRoundTrip(l: Layout)
    ensures Deserialize(Some(EncodedValue(l))) == if l.path != "" then Some(l) else None
  {
    var s := EncodedValue(l);
    if l.path != "" {
      assert s[1..] == l.path;
    }
  }

  /** A stored preference: a string, or a value the store holds under another type. */
  datatype PreferenceValue = StringValue(s: string) | OtherValue

  type Preferences = map<string, PreferenceValue>

  /**
   * `tryOrNull { getString(key, null) }`: the string stored under `key`, or
   * null when there is none or the stored value is not a string (the
   * `ClassCastException` that `getString` throws is caught).
   */
  function GetString(prefs: Preferences, key: string): (r: Option<string>)
    ensures r.Some? <==> key in prefs && prefs[key].StringValue?
    ensures r.Some? ==> prefs[key] == StringValue(r.value)
  {
    if key in prefs then
      match prefs[key]
      case StringValue(s) => Some(s)
      case OtherValue => None
    else None
  }

  /** `serialize(editor, key, value)`: stores the encoded layout under `key`, nothing else changes. */
  function Serialize(prefs: Preferences, key: string, value: Layout): (p: Preferences)
    ensures GetString(p, key) == Some(EncodedValue(value))
    ensures p.Keys == prefs.Keys + {key}
    ensures forall k :: k in prefs && k != key ==> p[k] == prefs[k]
  {
    prefs[key := StringValue(EncodedValue(value))]
  }

  /**
   * `deserialize(sharedPreferences, key, default)`: the stored layout if one
   * can be read and decoded, `default` otherwise.
   */
  function DeserializePreference(prefs: Preferences, key: string, default: Layout): (l: Layout)
    ensures Deserialize(GetString(prefs, key)).Some? ==> Deserialize(GetString(prefs, key)) == Some(l)
    ensures Deserialize(GetString(prefs, key)).None? ==> l == default
  {
    match GetString(prefs, key)
    case None => default
    case Some(s) => Deserialize(Some(s)).GetOr(default)
  }

  /** A layout written to the preferences is read back, unless its path is empty. */
  lemma {:induction false} PreferenceRoundTrip(prefs: Preferences, key: string, l: Layout, default: Layout)
    ensures DeserializePreference(Serialize(prefs, key, l), key, default) == if l.path != "" then l else default
  {
    SerDeRoundTrip(l);
  }

  // ---------------------------------------------------------------------------
  // Loading a layout's data

  /** The opened resource or document; its content is handed to the parser unread here. */
  datatype InputStream = InputStream(content: seq<bv8>)

  /** Why a layout could not be loaded: the wrapped exception, by its message. */
  datatype LayoutError = LayoutError(message: string)

  /**
   * The parsed layout, reduced to what this model uses: the number of layers
   * and the display name stored in its info block.
   */
  datatype KeyboardData = KeyboardData(totalLayers: nat, name: string)

  /**
   * `loadKeyboardData`: opening the layout's stream and parsing it may each
   * fail, and the first failure is the result. For an embedded layout an
   * empty name is replaced by `displayName(path)` (the title-cased display
   * name of the locale the path names); for a custom layout the parsed data
   * is returned as it is.
   */
  function LoadKeyboardData(
    layout: Layout,
    stream: Result<InputStream, LayoutError>,
    parse: InputStream -> Result<KeyboardData, LayoutError>,
    displayName: string -> string): (r: Result<KeyboardData, LayoutError>)
    ensures stream.Failure? ==> r == Failure(stream.error)
    ensures stream.Success? && parse(stream.value).Failure? ==> r == parse(stream.value)
    ensures r.Success? ==> stream.Success? && parse(stream.value).Success?
    ensures r.Success? ==> r.value.totalLayers == parse(stream.value).value.totalLayers
    ensures r.Success? && layout.CustomLayout? ==> r.value == parse(stream.value).value
    ensures r.Success? && layout.EmbeddedLayout? ==>
      r.value.name == if parse(stream.value).value.name == "" then displayName(layout.path)
                      else parse(stream.value).value.name
  {
    match stream
    case Failure(e) => Failure(e)
    case Success(s) =>
      match parse(s)
      case Failure(e) => Failure(e)
      case Success(data) =>
        match layout
        case EmbeddedLayout(path) =>
          Success(data.(name := if data.name == "" then displayName(path) else data.name))
        case CustomLayout(_) => Success(data)
  }

  // ---------------------------------------------------------------------------
  // The bundled layouts offered to the user

  /**
   * What `rememberEmbeddedLayouts` consults besides the raw field names: the
   * ISO language codes, how a raw resource is opened and parsed, the locale
   * display names, and `KeyboardData.toString`, which gives the map's key.
   */
  datatype LayoutContext = LayoutContext(
    isoCodes: set<string>,
    openRaw: string -> Result<InputStream, LayoutError>,
    parse: InputStream -> Result<KeyboardData, LayoutError>,
    displayName: string -> string,
    describe: KeyboardData -> string)

  /** The loaded data of the embedded layout named `name`. */
  function LoadEmbedded(ctx: LayoutContext, name: string): (r: Result<KeyboardData, LayoutError>)
    ensures r.Success? <==> ctx.openRaw(name).Success? && ctx.parse(ctx.openRaw(name).value).Success?
    ensures r.Success? ==> r.value.totalLayers == ctx.parse(ctx.openRaw(name).value).value.totalLayers
    ensures r.Success? ==>
              r.value.name == if ctx.parse(ctx.openRaw(name).value).value.name == "" then ctx.displayName(name)
                              else ctx.parse(ctx.openRaw(name).value).value.name
  {
    LoadKeyboardData(EmbeddedLayout(name), ctx.openRaw(name), ctx.parse, ctx.displayName)
  }

  /**
   * The entry one raw field contributes: none unless the name is an ISO
   * language code whose layout loads and has at least one layer; otherwise
   * the layout under its data's description.
   */
  function KeptEntry(ctx: LayoutContext, name: string): (r: Option<(string, Layout)>)
    ensures r.Some? <==>
      name in ctx.isoCodes && LoadEmbedded(ctx, name).Success? && LoadEmbedded(ctx, name).value.totalLayers != 0
    ensures r.Some? ==> r.value == (ctx.describe(LoadEmbedded(ctx, name).value), EmbeddedLayout(name))
  {
    if name !in ctx.isoCodes then None
    else
      match LoadEmbedded(ctx, name)
      case Failure(_) => None
      case Success(data) => if data.totalLayers == 0 then None else Some((ctx.describe(data), EmbeddedLayout(name)))
  }

  /** The raw field `name` contributes an entry under `key`. */
  predicate KeptUnder(ctx: LayoutContext, name: string, key: string) {
    KeptEntry(ctx, name).Some? && KeptEntry(ctx, name).value.0 == key
  }

  /** The map built by putting the kept entries of `fields` one after another. */
  function EmbeddedLayouts(ctx: LayoutContext, fields: seq<string>): (m: map<string, Layout>)
    ensures forall key :: key in m ==> m[key].EmbeddedLayout? && m[key].path in ctx.isoCodes
    ensures |fields| > 0 && KeptEntry(ctx, fields[|fields| - 1]).Some? ==>
      var (key, layout) := KeptEntry(ctx, fields[|fields| - 1]).value; key in m && m[key] == layout
  {
    if fields == [] then map[]
    else
      var before := EmbeddedLayouts(ctx, fields[..|fields| - 1]);
      match KeptEntry(ctx, fields[|fields| - 1])
      case None => before
      case Some((key, layout)) => before[key := layout]
  }

  /** Every entry of the map comes from a raw field that was kept under that key. */
  lemma {:induction false} EmbeddedLayoutsSound(ctx: LayoutContext, fields: seq<string>, key: string)
    requires key in EmbeddedLayouts(ctx, fields)
    ensures exists i :: 0 <= i < |fields| && KeptEntry(ctx, fields[i]) == Some((key, EmbeddedLayouts(ctx, fields)[key]))
  {
    var n := |fields|;
    var before := fields[..n - 1];
    var m := EmbeddedLayouts(ctx, fields);
    if KeptUnder(ctx, fields[n - 1], key) {
      assert KeptEntry(ctx, fields[n - 1]) == Some((key, m[key]));
    } else {
      assert key in EmbeddedLayouts(ctx, before) && m[key] == EmbeddedLayouts(ctx, before)[key];
      EmbeddedLayoutsSound(ctx, before, key);
      var i :| 0 <= i < |before| && KeptEntry(ctx, before[i]) == Some((key, m[key]));
      assert before[i] == fields[i];
    }
  }

  /** Every value of the map is an embedded layout named by an ISO language code. */
  lemma EmbeddedLayoutsAreEmbedded(ctx: LayoutContext, fields: seq<string>, key: string)
    requires key in EmbeddedLayouts(ctx, fields)
    ensures EmbeddedLayouts(ctx, fields)[key].EmbeddedLayout?
    ensures EmbeddedLayouts(ctx, fields)[key].path in ctx.isoCodes
    ensures EmbeddedLayouts(ctx, fields)[key].path in fields
  {
    EmbeddedLayoutsSound(ctx, fields, key);
  }

  /**
   * A kept field is in the map under its key unless a later field is kept
   * under the same key: the last put wins.
   */
  lemma {:induction false} EmbeddedLayoutsLastWins(ctx: LayoutContext, fields: seq<string>, i: nat)
    requires i < |fields| && KeptEntry(ctx, fields[i]).Some?
    requires forall j :: i < j < |fields| ==> !KeptUnder(ctx, fields[j], KeptEntry(ctx, fields[i]).value.0)
    ensures KeptEntry(ctx, fields[i]).value.0 in EmbeddedLayouts(ctx, fields)
    ensures EmbeddedLayouts(ctx, fields)[KeptEntry(ctx, fields[i]).value.0] == KeptEntry(ctx, fields[i]).value.1
  {
    var n := |fields|;
    var before := fields[..n - 1];
    if i < n - 1 {
      assert before[i] == fields[i];
      forall j | i < j < |before| ensures !KeptUnder(ctx, before[j], KeptEntry(ctx, before[i]).value.0) {
        assert before[j] == fields[j];
      }
      EmbeddedLayoutsLastWins(ctx, before, i);
    }
  }

  /**
   * `rememberEmbeddedLayouts`: keeps the raw fields named by an ISO language
   * code, loads each as an embedded layout, drops those that fail to load or
   * have no layer, and puts the rest into the map under their description.
   */
  method RememberEmbeddedLayouts(ctx: LayoutContext, fields: seq<string>) returns (layouts: map<string, Layout>)
    ensures layouts == EmbeddedLayouts(ctx, fields)
  {
    layouts := map[];
    for i := 0 to |fields|
      invariant layouts == EmbeddedLayouts(ctx, fields[..i])
    {
      assert fields[..i + 1][..i] == fields[..i];
      var name := fields[i];
      if name in ctx.isoCodes {
        var layout := EmbeddedLayout(name);
        var loaded := LoadKeyboardData(layout, ctx.openRaw(name), ctx.parse, ctx.displayName);
        if loaded.Success? && loaded.value.totalLayers != 0 {
          layouts := layouts[ctx.describe(loaded.value) := layout];
        }
      }
    }
    assert fields[..|fields|] == fields;
  }
}
