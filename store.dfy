/**
 * The settings store of `useSettings`: the snapshot every widget reads, loaded
 * from localStorage, changed by `updateSetting` and by storage events from
 * other tabs, and pushed to the page by the applier.
 */
module Store {
  import opened Wrappers
  import opened Json
  import opened Text
  import opened Settings
  import opened Effects

  // ---------------------------------------------------------------------
  // Specification of one update

  /** The page after `updateSetting(key, value)` with next snapshot `next`: the stored text first, then the applier. */
  function UpdatedPage(p: Page, key: string, value: Json, next: map<string, Json>): Page
  {
    Effect(WriteItem(p, key, Serialise(value)), key, value, next)
  }

  /** The text localStorage holds for `key` once `updateSetting(key, value)` has written it. */
  function PersistedText(key: string, value: Json): string
  {
    if key == "themeColor" then JsString(value) else Serialise(value)
  }

  /**
   * An update writes the value's text under its key and nothing else; a
   * rejected write leaves localStorage as it was. The theme's second write,
   * `String(value)`, is the one that stays.
   */
  lemma UpdatePersists(p: Page, key: string, value: Json, next: map<string, Json>)
    ensures UpdatedPage(p, key, value, next).store
         == if p.writesRejected then p.store else p.store[key := PersistedText(key, value)]
    ensures Throws(WriteItem(p, key, Serialise(value)), key) == Throws(p, key)
  {
    var q := WriteItem(p, key, Serialise(value));
    EffectStore(q, key, value, next);
  }

  /**
   * Reloading after an update gives back the value for its key exactly when
   * the value has the type of the key's default, and every other known key
   * loads as before.
   */
  lemma ReloadAfterUpdate(p: Page, key: string, value: Json, next: map<string, Json>)
    requires key in Defaults && !p.writesRejected
    ensures LoadSnapshot(UpdatedPage(p, key, value, next).store)[key] == value <==> Fits(Defaults[key], value)
    ensures forall k :: k in Defaults && k != key ==>
      LoadSnapshot(UpdatedPage(p, key, value, next).store)[k] == LoadSnapshot(p.store)[k]
  {
    UpdatePersists(p, key, value, next);
    var store := UpdatedPage(p, key, value, next).store;
    assert store == p.store[key := PersistedText(key, value)];
    if key == "themeColor" {
      assert LoadSnapshot(store)[key] == JStr(JsString(value));
    } else {
      DecodeSerialise(Defaults[key], value);
    }
  }

  /** An update of a key outside the table is stored, yet a reload does not bring it back. */
  lemma ReloadDropsUnknown(p: Page, key: string, value: Json, next: map<string, Json>)
    requires key !in Defaults && !p.writesRejected
    ensures key in UpdatedPage(p, key, value, next).store
    ensures LoadSnapshot(UpdatedPage(p, key, value, next).store) == LoadSnapshot(p.store)
  {
    UpdatePersists(p, key, value, next);
    LoadIgnoresUnknown(p.store, key, PersistedText(key, value));
  }

  // ---------------------------------------------------------------------
  // Mirroring another tab

  /** The strings another tab reads back as themselves. */
  predicate SurvivesAsString(s: string)
  {
    s != "true" && s != "false" && !((StartsWith(s, "{") || StartsWith(s, "[")) && Parse(s).Some?)
  }

  /** The values another tab's `handleStorageChange` rebuilds from the text `updateSetting` stored. */
  predicate Mirrors(v: Json)
  {
    v.JBool? || v.JArr? || v.JObj? || (v.JStr? && SurvivesAsString(v.s))
  }

  /** Text that starts with a bracket parses, if at all, to an array or object. */
  lemma ParseBracketed(s: string)
    requires StartsWith(s, "{") || StartsWith(s, "[")
    requires Parse(s).Some?
    ensures Parse(s).value.JArr? || Parse(s).value.JObj?
  {
    assert SkipWs(s) == s;
    if s[0] == '[' { ReadArrayStep(s); } else { ReadObjectStep(s); }
  }

  /**
   * A value written by one tab is seen unchanged by another exactly when it
   * is a boolean, an array, an object, or a string that neither spells a
   * boolean nor parses as bracketed JSON; numbers and null arrive as strings.
   */
  lemma MirrorUpdate(v: Json)
    ensures ExternalDecode(Some(Serialise(v))) == v <==> Mirrors(v)
  {
    var text := Serialise(v);
    match v
    case JBool(_) =>
    case JArr(_) =>
      StringifyFirst(v);
      assert StartsWith(text, "[");
      ParseStringify(v);
    case JObj(_) =>
      StringifyFirst(v);
      assert StartsWith(text, "{");
      ParseStringify(v);
    case JStr(s) =>
      if (StartsWith(s, "{") || StartsWith(s, "[")) && Parse(s).Some? {
        ParseBracketed(s);
      }
    case JNum(n) =>
      if StartsWith(text, "{") || StartsWith(text, "[") {
        StringifyFirst(v);
        JsStringOfScalar(v);
        assert false;
      }
    case JNull =>
  }

  /**
   * A string setting whose value is the text "true" becomes the boolean
   * `true` in another tab, while a reload of that tab reads it as the string.
   */
  lemma CrossTabTurnsStringIntoBoolean(snap: map<string, Json>)
    requires "customCSS" in snap
    ensures ExternalChange(snap, Some("customCSS"), Some(Serialise(JStr("true"))))["customCSS"] == JBool(true)
    ensures LoadSnapshot(map["customCSS" := Serialise(JStr("true"))])["customCSS"] == JStr("true")
  {
  }

  // ---------------------------------------------------------------------
  // Applying every setting on mount

  /** The page after a run of the applier, and whether the run ended by throwing. */
  datatype Run = Run(page: Page, threw: bool)

  /** `allSettings[key]`, null where it is missing. */
  function ValueOf(all: map<string, Json>, key: string): Json
  {
    if key in all then all[key] else JNull
  }

  /** `keys.forEach(key => applySettingImmediately(key, all[key], all))`, which a throw ends. */
  function ApplyAll(p: Page, keys: seq<string>, all: map<string, Json>): Run
    decreases |keys|
  {
    if |keys| == 0 then Run(p, false)
    else
      var r := ApplyAll(p, keys[..|keys| - 1], all);
      var key := keys[|keys| - 1];
      if r.threw then r
      else Run(Effect(r.page, key, ValueOf(all, key), all), Throws(r.page, key))
  }

  /** Once a key has thrown, the keys after it are not applied. */
  lemma {:induction false} ApplyAllStops(p: Page, keys: seq<string>, n: nat, all: map<string, Json>)
    requires n <= |keys|
    requires ApplyAll(p, keys[..n], all).threw
    ensures ApplyAll(p, keys, all) == ApplyAll(p, keys[..n], all)
    decreases |keys|
  {
    if n < |keys| {
      var init := keys[..|keys| - 1];
      assert init[..n] == keys[..n];
      ApplyAllStops(p, init, n, all);
    } else {
      assert keys[..n] == keys;
    }
  }

  /** With writes accepted nothing throws, and applying two runs of keys is applying them one after the other. */
  lemma {:induction false} ApplyAllAppend(p: Page, a: seq<string>, b: seq<string>, all: map<string, Json>)
    requires !p.writesRejected
    ensures !ApplyAll(p, a, all).threw && !ApplyAll(p, a, all).page.writesRejected
    ensures ApplyAll(p, a + b, all) == ApplyAll(ApplyAll(p, a, all).page, b, all)
    decreases |a| + |b|
  {
    if |b| == 0 {
      assert a + b == a;
      if |a| > 0 {
        ApplyAllAppend(p, a[..|a| - 1], [], all);
        var r := ApplyAll(p, a[..|a| - 1], all);
        EffectStore(r.page, a[|a| - 1], ValueOf(all, a[|a| - 1]), all);
      }
    } else {
      assert (a + b)[..|a + b| - 1] == a + b[..|b| - 1];
      ApplyAllAppend(p, a, b[..|b| - 1], all);
      var q := ApplyAll(p, a, all).page;
      ApplyAllAppend(q, b[..|b| - 1], [], all);
      assert b[..|b| - 1] + [] == b[..|b| - 1];
    }
  }

  /** Keys that do not select a case writing a part of the page leave that part alone. */
  lemma {:induction false} ApplyAllFrame(p: Page, keys: seq<string>, all: map<string, Json>)
    ensures "fontSize" !in keys ==> ApplyAll(p, keys, all).page.rootFontSize == p.rootFontSize
    ensures "darkMode" !in keys ==> ApplyAll(p, keys, all).page.darkClass == p.darkClass
    ensures "animationSpeed" !in keys && "performanceMode" !in keys
            ==> SameVar(ApplyAll(p, keys, all).page.cssVars, p.cssVars, "--animation-speed")
    ensures "backgroundBlur" !in keys && "glassEffect" !in keys
            ==> ApplyAll(p, keys, all).page.sharedFilter == p.sharedFilter
    decreases |keys|
  {
    if |keys| > 0 {
      var init := keys[..|keys| - 1];
      assert keys == init + [keys[|keys| - 1]];
      ApplyAllFrame(p, init, all);
      var r := ApplyAll(p, init, all);
      EffectFrame(r.page, keys[|keys| - 1], ValueOf(all, keys[|keys| - 1]), all);
    }
  }

  /** With writes accepted, the result of a pass is the page after its `n`-th key, carried through the keys after it. */
  lemma ApplyAllSplit(p: Page, keys: seq<string>, n: nat, all: map<string, Json>)
    requires !p.writesRejected && 0 < n <= |keys|
    ensures var before := ApplyAll(p, keys[..n - 1], all).page;
      ApplyAll(p, keys, all)
      == ApplyAll(Effect(before, keys[n - 1], ValueOf(all, keys[n - 1]), all), keys[n..], all)
  {
    assert keys == keys[..n] + keys[n..];
    assert keys[..n][..n - 1] == keys[..n - 1];
    ApplyAllAppend(p, keys[..n], keys[n..], all);
    ApplyAllAppend(p, keys[..n - 1], [], all);
  }

  /** The last darkMode of a pass decides the dark class. */
  lemma LastDarkMode(p: Page, keys: seq<string>, n: nat, all: map<string, Json>)
    requires !p.writesRejected && 0 < n <= |keys|
    requires keys[n - 1] == "darkMode" && "darkMode" !in keys[n..]
    ensures ApplyAll(p, keys, all).page.darkClass == Truthy(ValueOf(all, "darkMode"))
  {
    ApplyAllSplit(p, keys, n, all);
    var q := Effect(ApplyAll(p, keys[..n - 1], all).page, "darkMode", ValueOf(all, "darkMode"), all);
    ApplyAllFrame(q, keys[n..], all);
  }

  /** The last fontSize of a pass decides the root font size. */
  lemma LastFontSize(p: Page, keys: seq<string>, n: nat, all: map<string, Json>)
    requires !p.writesRejected && 0 < n <= |keys|
    requires keys[n - 1] == "fontSize" && "fontSize" !in keys[n..]
    ensures ApplyAll(p, keys, all).page.rootFontSize == FontSizeFor(ValueOf(all, "fontSize"))
  {
    ApplyAllSplit(p, keys, n, all);
    var q := Effect(ApplyAll(p, keys[..n - 1], all).page, "fontSize", ValueOf(all, "fontSize"), all);
    ApplyAllFrame(q, keys[n..], all);
  }

  /** A glassEffect after which neither filter key comes decides the filter of elements both selectors match. */
  lemma LastGlassEffect(p: Page, keys: seq<string>, n: nat, all: map<string, Json>)
    requires !p.writesRejected && 0 < n <= |keys|
    requires keys[n - 1] == "glassEffect"
    requires "glassEffect" !in keys[n..] && "backgroundBlur" !in keys[n..]
    ensures ApplyAll(p, keys, all).page.sharedFilter == if Truthy(ValueOf(all, "glassEffect")) then GlassOn else "none"
  {
    ApplyAllSplit(p, keys, n, all);
    var q := Effect(ApplyAll(p, keys[..n - 1], all).page, "glassEffect", ValueOf(all, "glassEffect"), all);
    ApplyAllFrame(q, keys[n..], all);
  }

  /** A performanceMode after which neither speed key comes decides the animation speed. */
  lemma LastPerformanceMode(p: Page, keys: seq<string>, n: nat, all: map<string, Json>)
    requires !p.writesRejected && 0 < n <= |keys|
    requires keys[n - 1] == "performanceMode"
    requires "performanceMode" !in keys[n..] && "animationSpeed" !in keys[n..]
    ensures "--animation-speed" in ApplyAll(p, keys, all).page.cssVars
    ensures ApplyAll(p, keys, all).page.cssVars["--animation-speed"]
         == if Truthy(ValueOf(all, "performanceMode")) then "0.1s" else SpeedFor(AnimationSpeedOf(all))
  {
    ApplyAllSplit(p, keys, n, all);
    var q := Effect(ApplyAll(p, keys[..n - 1], all).page, "performanceMode", ValueOf(all, "performanceMode"), all);
    ApplyAllFrame(q, keys[n..], all);
  }

  /** A key of the table does not come back after its position. */
  lemma NotLater(n: nat)
    requires n < |DefaultKeys|
    ensures DefaultKeys[n] !in DefaultKeys[n + 1..]
  {
    DefaultKeysDistinct();
    var later := DefaultKeys[n + 1..];
    forall i | 0 <= i < |later|
      ensures later[i] != DefaultKeys[n]
    {
      assert later[i] == DefaultKeys[n + 1 + i];
    }
  }

  /** A key of the table does not come back from a later position on. */
  lemma NotFrom(n: nat, m: nat)
    requires n < m <= |DefaultKeys|
    ensures DefaultKeys[n] !in DefaultKeys[m..]
  {
    DefaultKeysDistinct();
    var later := DefaultKeys[m..];
    forall i | 0 <= i < |later|
      ensures later[i] != DefaultKeys[n]
    {
      assert later[i] == DefaultKeys[m + i];
    }
  }

  /** After the mount-time pass, with writes accepted, nothing has thrown and the dark class follows darkMode. */
  lemma MountDarkClass(p: Page, all: map<string, Json>)
    requires !p.writesRejected
    ensures !ApplyAll(p, DefaultKeys, all).threw
    ensures ApplyAll(p, DefaultKeys, all).page.darkClass == Truthy(ValueOf(all, "darkMode"))
  {
    ApplyAllAppend(p, DefaultKeys, [], all);
    NotLater(0);
    LastDarkMode(p, DefaultKeys, 1, all);
  }

  /** After the mount-time pass, with writes accepted, the root font size follows fontSize. */
  lemma MountFontSize(p: Page, all: map<string, Json>)
    requires !p.writesRejected
    ensures ApplyAll(p, DefaultKeys, all).page.rootFontSize == FontSizeFor(ValueOf(all, "fontSize"))
  {
    NotLater(4);
    LastFontSize(p, DefaultKeys, 5, all);
  }

  /**
   * After the mount-time pass, with writes accepted, elements both selectors match carry the
   * glass filter: glassEffect comes after backgroundBlur, so the chosen blur never shows on them.
   */
  lemma MountSharedFilter(p: Page, all: map<string, Json>)
    requires !p.writesRejected
    ensures ApplyAll(p, DefaultKeys, all).page.sharedFilter
         == if Truthy(ValueOf(all, "glassEffect")) then GlassOn else "none"
  {
    assert DefaultKeys[2] == "backgroundBlur" && DefaultKeys[3] == "glassEffect";
    NotFrom(2, 4);
    NotFrom(3, 4);
    LastGlassEffect(p, DefaultKeys, 4, all);
  }

  /** After the mount-time pass, with writes accepted, performance mode overrides the animation speed. */
  lemma MountAnimationSpeed(p: Page, all: map<string, Json>)
    requires !p.writesRejected
    ensures "--animation-speed" in ApplyAll(p, DefaultKeys, all).page.cssVars
    ensures ApplyAll(p, DefaultKeys, all).page.cssVars["--animation-speed"]
         == if Truthy(ValueOf(all, "performanceMode")) then "0.1s" else SpeedFor(AnimationSpeedOf(all))
  {
    assert DefaultKeys[23..] == ["customCSS", "apiConfig"];
    LastPerformanceMode(p, DefaultKeys, 23, all);
  }

  /** A pass whose first two keys are darkMode and the theme, with writes rejected. */
  lemma RejectedAtTheme(p: Page, keys: seq<string>, all: map<string, Json>)
    requires p.writesRejected && |keys| >= 2 && keys[0] == "darkMode" && keys[1] == "themeColor"
    ensures ApplyAll(p, keys, all).threw
    ensures ApplyAll(p, keys, all).page.darkClass == Truthy(ValueOf(all, "darkMode"))
    ensures ApplyAll(p, keys, all).page.rootFontSize == p.rootFontSize
    ensures ApplyAll(p, keys, all).page.cssVars == p.cssVars
    ensures ApplyAll(p, keys, all).page.store == p.store
  {
    assert keys[..1][..0] == [];
    assert ApplyAll(p, keys[..1][..0], all) == Run(p, false);
    var r1 := ApplyAll(p, keys[..1], all);
    assert r1 == Run(Effect(p, "darkMode", ValueOf(all, "darkMode"), all), false);
    EffectStore(p, "darkMode", ValueOf(all, "darkMode"), all);
    assert keys[..2][..1] == keys[..1];
    var r2 := ApplyAll(p, keys[..2], all);
    assert r2 == Run(Effect(r1.page, "themeColor", ValueOf(all, "themeColor"), all), true);
    ApplyAllStops(p, keys, 2, all);
  }

  /** With writes rejected, the mount-time pass stops at the theme, the second key: only the dark class is applied. */
  lemma MountRejected(p: Page, all: map<string, Json>)
    requires p.writesRejected
    ensures ApplyAll(p, DefaultKeys, all).threw
    ensures ApplyAll(p, DefaultKeys, all).page.darkClass == Truthy(ValueOf(all, "darkMode"))
    ensures ApplyAll(p, DefaultKeys, all).page.rootFontSize == p.rootFontSize
    ensures ApplyAll(p, DefaultKeys, all).page.cssVars == p.cssVars
    ensures ApplyAll(p, DefaultKeys, all).page.store == p.store
  {
    RejectedAtTheme(p, DefaultKeys, all);
  }

  // ---------------------------------------------------------------------
  // The store

  /** The loop of the `useSettings` initialiser over `keys`: the decoded text of each of them that is stored. */
  method ReadSaved(store: map<string, string>, keys: seq<string>, defaults: map<string, Json>)
    returns (saved: map<string, Json>)
    requires forall i :: 0 <= i < |keys| ==> keys[i] in defaults
    ensures forall k :: k in saved <==> k in keys && k in store
    ensures forall k :: k in saved ==> k in defaults && saved[k] == DecodeSaved(defaults[k], store[k])
  {
    saved := map[];
    var i := 0;
    while i < |keys|
      invariant 0 <= i <= |keys|
      invariant forall k :: k in saved <==> k in keys[..i] && k in store
      invariant forall k :: k in saved ==> k in defaults && k in store && saved[k] == DecodeSaved(defaults[k], store[k])
    {
      var key := keys[i];
      if key in store {
        var def := defaults[key];
        var text := store[key];
        var value: Json;
        match KindOf(def) {
          case BooleanKind =>
            value := JBool(text == "true");
          case ObjectKind =>
            var parsed := Parse(text);
            if parsed.Some? {
              value := parsed.value;
            } else {
              value := def;  // the parse threw: fall back to the default
            }
          case OtherKind =>
            value := JStr(text);
        }
        saved := saved[key := value];
      }
      assert keys[..i + 1] == keys[..i] + [key];
      i := i + 1;
    }
    assert keys[..i] == keys;
  }

  /** The `useSettings` initialiser: read each known key and merge what decodes over the defaults. */
  method Initialise(store: map<string, string>) returns (snap: map<string, Json>)
    ensures snap == LoadSnapshot(store)
  {
    DefaultKeysCover();
    var saved := ReadSaved(store, DefaultKeys, Defaults);
    snap := Defaults + saved;
  }

  class SettingsStore {
    /** The snapshot every widget reads. */
    var settings: map<string, Json>
    /** The page and the localStorage the store writes through. */
    const env: Environment

    /** The snapshot always holds every known setting. */
    ghost predicate Valid()
      reads this
    {
      Defaults.Keys <= settings.Keys
    }

    /** `useSettings()` on first render: the snapshot loaded from the page's localStorage. */
    constructor (env: Environment)
      ensures this.env == env
      ensures settings == LoadSnapshot(env.store) && Valid()
    {
      var snap := Initialise(env.store);
      this.env := env;
      settings := snap;
    }

    /**
     * `updateSetting(key, value)`: store the value's text (a rejected write
     * is swallowed), apply it to the page, and replace the key in the
     * snapshot; the snapshot is kept when the applier throws.
     */
    method UpdateSetting(key: string, value: Json) returns (threw: bool)
      requires Valid()
      modifies this, env
      ensures Valid()
      ensures threw == Throws(old(env.State()), key)
      ensures settings == if threw then old(settings) else old(settings)[key := value]
      ensures env.State() == UpdatedPage(old(env.State()), key, value, old(settings)[key := value])
    {
      var next := settings[key := value];
      var written := env.SetItem(key, Serialise(value));
      threw := env.ApplySettingImmediately(key, value, next);
      if !threw {
        settings := next;
      }
    }

    /** `handleStorageChange(e)` for another tab's write of `newValue` under `key`; localStorage and page are left alone. */
    method HandleStorageChange(key: Option<string>, newValue: Option<string>)
      requires Valid()
      modifies this
      ensures Valid()
      ensures settings == ExternalChange(old(settings), key, newValue)
    {
      if key.Some? && key.value != "" && key.value in settings {
        var value: Json;
        if newValue.None? {
          value := JNull;
        } else {
          var text := newValue.value;
          if text == "true" {
            value := JBool(true);
          } else if text == "false" {
            value := JBool(false);
          } else if StartsWith(text, "{") || StartsWith(text, "[") {
            var parsed := Parse(text);
            value := if parsed.Some? then parsed.value else JStr(text);
          } else {
            value := JStr(text);
          }
        }
        settings := settings[key.value := value];
      }
    }

    /** `keys.forEach(key => applySettingImmediately(key, settings[key], settings))`, which a throw ends. */
    method ApplyEach(keys: seq<string>) returns (threw: bool)
      requires forall i :: 0 <= i < |keys| ==> keys[i] in settings
      modifies env
      ensures Run(env.State(), threw) == ApplyAll(old(env.State()), keys, settings)
    {
      ghost var p0 := env.State();
      var i := 0;
      threw := false;
      while i < |keys| && !threw
        invariant 0 <= i <= |keys|
        invariant Run(env.State(), threw) == ApplyAll(p0, keys[..i], settings)
      {
        var key := keys[i];
        assert keys[..i + 1][..i] == keys[..i];
        threw := env.ApplySettingImmediately(key, settings[key], settings);
        i := i + 1;
      }
      if threw {
        ApplyAllStops(p0, keys, i, settings);
      } else {
        assert keys[..i] == keys;
      }
    }

    /** The mount effect: apply every setting of the freshly loaded snapshot, in key order. */
    method ApplyAllOnMount() returns (threw: bool)
      requires Valid()
      modifies env
      ensures Run(env.State(), threw) == ApplyAll(old(env.State()), DefaultKeys, settings)
    {
      DefaultKeysCover();
      threw := ApplyEach(DefaultKeys);
    }
  }
}
