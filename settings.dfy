/**
 * The settings of `useSettings`: the table of typed defaults and the rules by
 * which a setting's value is written to, and read back from, localStorage
 * (a map from key to text).
 */
module Settings {
  import opened Wrappers
  import opened Json
  import opened Text

  /** The settings `useSettings` knows, in the order it declares them (which `Object.keys` follows). */
  const DefaultKeys: seq<string> := [
    "darkMode", "themeColor", "backgroundBlur", "glassEffect", "fontSize",
    "animationSpeed", "bgRotationSpeed", "autoClearTasks", "defaultSearch", "startupPage",
    "keyboardShortcuts", "weatherWidget", "quickNotes", "desktopNotifications", "taskSounds",
    "browserAlerts", "dailyReports", "autoBackup", "dataEncryption", "privacyMode",
    "developerMode", "experimentalFeatures", "performanceMode", "customCSS", "apiConfig"]

  /** The default of every known setting. */
  const Defaults: map<string, Json> := map[
    "darkMode" := JBool(false), "themeColor" := JStr("primary"),
    "backgroundBlur" := JStr("medium"), "glassEffect" := JBool(true),
    "fontSize" := JStr("medium"), "animationSpeed" := JStr("normal"),
    "bgRotationSpeed" := JStr("5min"), "autoClearTasks" := JBool(false),
    "defaultSearch" := JStr("both"), "startupPage" := JStr("dashboard"),
    "keyboardShortcuts" := JBool(true), "weatherWidget" := JBool(false),
    "quickNotes" := JBool(true), "desktopNotifications" := JBool(false),
    "taskSounds" := JBool(true), "browserAlerts" := JBool(true),
    "dailyReports" := JBool(false), "autoBackup" := JStr("never"),
    "dataEncryption" := JBool(false), "privacyMode" := JBool(false),
    "developerMode" := JBool(false), "experimentalFeatures" := JBool(false),
    "performanceMode" := JBool(false), "customCSS" := JStr(""),
    "apiConfig" := JObj([])]

  /** The key order lists every known setting, and nothing else. */
  lemma DefaultKeysCover()
    ensures forall k :: k in DefaultKeys <==> k in Defaults
  {
  }

  /** The key order lists no setting twice. */
  lemma DefaultKeysDistinct()
    ensures forall i, j :: 0 <= i < j < |DefaultKeys| ==> DefaultKeys[i] != DefaultKeys[j]
  {
  }

  // ---------------------------------------------------------------------
  // Loading

  /** How the loader reads stored text: by `typeof` of the setting's default. */
  datatype Kind = BooleanKind | ObjectKind | OtherKind

  function KindOf(def: Json): Kind
  {
    match def
    case JBool(_) => BooleanKind
    case JNull => ObjectKind
    case JArr(_) => ObjectKind
    case JObj(_) => ObjectKind
    case _ => OtherKind
  }

  /** The value the loader takes from the stored text `saved` of a setting whose default is `def`. */
  function DecodeSaved(def: Json, saved: string): Json
  {
    match KindOf(def)
    case BooleanKind => JBool(saved == "true")
    case OtherKind => JStr(saved)
    case ObjectKind =>
      match Parse(saved)
      case Some(j) => j
      case None => def
  }

  /** The loaded value of the known setting `key`. */
  function Loaded(store: map<string, string>, key: string): Json
    requires key in Defaults
  {
    if key in store then DecodeSaved(Defaults[key], store[key]) else Defaults[key]
  }

  /** The snapshot the `useSettings` initialiser returns for the stored texts `store`. */
  function LoadSnapshot(store: map<string, string>): (snap: map<string, Json>)
    ensures snap.Keys == Defaults.Keys
  {
    map k | k in Defaults :: Loaded(store, k)
  }

  /** With nothing stored, every setting takes its default. */
  lemma LoadEmpty()
    ensures LoadSnapshot(map[]) == Defaults
  {
  }

  /** Stored keys outside the table are never read: they do not change what is loaded. */
  lemma LoadIgnoresUnknown(store: map<string, string>, key: string, text: string)
    requires key !in Defaults
    ensures LoadSnapshot(store[key := text]) == LoadSnapshot(store)
  {
  }

  /** A boolean setting loads as `true` exactly when its stored text is "true". */
  lemma LoadBoolean(store: map<string, string>, key: string)
    requires key in Defaults && KindOf(Defaults[key]) == BooleanKind
    ensures LoadSnapshot(store)[key].JBool?
    ensures key in store ==> (LoadSnapshot(store)[key] == JBool(true) <==> store[key] == "true")
  {
  }

  /** A setting missing from the store takes its default; a stored string setting is taken as it is. */
  lemma LoadAbsentOrRaw(store: map<string, string>, key: string)
    requires key in Defaults
    ensures key !in store ==> LoadSnapshot(store)[key] == Defaults[key]
    ensures key in store && KindOf(Defaults[key]) == OtherKind ==> LoadSnapshot(store)[key] == JStr(store[key])
  {
  }

  /** A stored text that fails to parse gives the default for that object setting only. */
  lemma LoadMalformed(store: map<string, string>, key: string, text: string)
    requires key in Defaults && KindOf(Defaults[key]) == ObjectKind && Parse(text).None?
    ensures LoadSnapshot(store[key := text])[key] == Defaults[key]
    ensures forall k :: k in Defaults && k != key ==> LoadSnapshot(store[key := text])[k] == LoadSnapshot(store)[k]
  {
  }

  /** Parseable text for an object setting loads as its parse. */
  lemma LoadObject(store: map<string, string>, key: string)
    requires key in Defaults && KindOf(Defaults[key]) == ObjectKind
    requires key in store && Parse(store[key]).Some?
    ensures LoadSnapshot(store)[key] == Parse(store[key]).value
  {
  }

  // ---------------------------------------------------------------------
  // Writing

  /** The text `updateSetting` stores: JSON for objects (and null, whose `typeof` is "object"), `String(value)` otherwise. */
  function Serialise(v: Json): string
  {
    if v.JNull? || v.JArr? || v.JObj? then Stringify(v) else JsString(v)
  }

  /** The values of a setting that a reload gives back unchanged: those of the default's type. */
  predicate Fits(def: Json, v: Json)
  {
    match KindOf(def)
    case BooleanKind => v.JBool?
    case OtherKind => v.JStr?
    case ObjectKind => !v.JStr?
  }

  /** Reading back what was written gives the value exactly when it fits the setting's type. */
  lemma DecodeSerialise(def: Json, v: Json)
    ensures DecodeSaved(def, Serialise(v)) == v <==> Fits(def, v)
  {
    match KindOf(def)
    case BooleanKind =>
    case OtherKind =>
    case ObjectKind =>
      if v.JStr? {
        var s := v.s;
        if Parse(s).Some? && Parse(s).value == v {
          ParseStrShorter(s, s);
        }
        assert def != v;
      } else {
        if v.JBool? || v.JNum? {
          JsStringOfScalar(v);
        }
        ParseStringify(v);
      }
  }

  // ---------------------------------------------------------------------
  // Changes made by another tab

  /** The value `handleStorageChange` makes of an event's `newValue` (`None` for null). */
  function ExternalDecode(newValue: Option<string>): Json
  {
    match newValue
    case None => JNull
    case Some(s) =>
      if s == "true" then JBool(true)
      else if s == "false" then JBool(false)
      else if StartsWith(s, "{") || StartsWith(s, "[") then
        match Parse(s)
        case Some(j) => j
        case None => JStr(s)
      else JStr(s)
  }

  /** Whether `handleStorageChange` acts on an event for `key`: a non-empty key the snapshot already has. */
  predicate Tracks(snap: map<string, Json>, key: Option<string>)
  {
    key.Some? && key.value != "" && key.value in snap
  }

  /** The snapshot after `handleStorageChange` handles the event (`key`, `newValue`). */
  function ExternalChange(snap: map<string, Json>, key: Option<string>, newValue: Option<string>): (r: map<string, Json>)
    ensures !Tracks(snap, key) ==> r == snap
    ensures Tracks(snap, key) ==> r.Keys == snap.Keys && r[key.value] == ExternalDecode(newValue)
    ensures forall k :: k in snap && Some(k) != key ==> k in r && r[k] == snap[k]
  {
    if Tracks(snap, key) then snap[key.value := ExternalDecode(newValue)] else snap
  }
}
