/**
 * `applySettingImmediately` and `applyCustomCSS`: what a setting change does to
 * the page. `Page` is the part of the browser they touch; `Effect` is the
 * dispatch table as a function and `Environment` the mutable page it acts on.
 */
module Effects {
  import opened Json

  /** A `CustomEvent` dispatched on `window`, with its `detail`. */
  datatype Event = ThemeChange(theme: Json) | RotationSpeedChange(speed: Json)

  /**
   * The page as the applier sees it: the `dark` class on the root element, the
   * root font size, the root's CSS custom properties, the `custom-css` style
   * element, the inline `backdrop-filter` of the currently mounted elements (those
   * only the blur selector matches, those only the glass selector matches, and
   * those both match, such as a `backdrop-blur-sm bg-white/90` panel), the events
   * dispatched so far, and localStorage with whether it currently rejects writes
   * (a full quota, say).
   */
  datatype Page = Page(
    darkClass: bool,
    rootFontSize: string,
    cssVars: map<string, string>,
    customStyleExists: bool,
    customStyleText: string,
    backdropFilter: string,
    glassFilter: string,
    sharedFilter: string,
    events: seq<Event>,
    store: map<string, string>,
    writesRejected: bool)

  /** The settings the switch of `applySettingImmediately` has a case for. */
  const AppliedKeys: set<string> := {
    "darkMode", "themeColor", "fontSize", "bgRotationSpeed", "backgroundBlur",
    "glassEffect", "animationSpeed", "customCSS", "performanceMode"}

  const GlassOn := "blur(10px) saturate(180%)"

  function FontSizeFor(v: Json): string
  {
    if v == JStr("small") then "14px" else if v == JStr("large") then "18px" else "16px"
  }

  function BlurFor(v: Json): string
  {
    if v == JStr("low") then "2px" else if v == JStr("high") then "12px" else "6px"
  }

  function SpeedFor(v: Json): string
  {
    if v == JStr("slow") then "0.5s" else if v == JStr("fast") then "0.2s" else "0.3s"
  }

  /** `allSettings.animationSpeed`, `undefined` (like null, neither "slow" nor "fast") when absent. */
  function AnimationSpeedOf(all: map<string, Json>): Json
  {
    if "animationSpeed" in all then all["animationSpeed"] else JNull
  }

  /** The text a style element gets from `textContent = css`: null clears it, anything else is `String(css)`. */
  function CssText(css: Json): string
  {
    if css.JNull? then "" else JsString(css)
  }

  /** `localStorage.setItem(key, text)`, which changes nothing when the write is rejected. */
  function WriteItem(p: Page, key: string, text: string): (q: Page)
    ensures q.store == if p.writesRejected then p.store else p.store[key := text]
    ensures q.(store := p.store) == p
  {
    if p.writesRejected then p else p.(store := p.store[key := text])
  }

  /** `applyCustomCSS(css)`: create the `custom-css` element if it is missing, then set its text. */
  function WithCustomCss(p: Page, css: Json): Page
  {
    p.(customStyleExists := true, customStyleText := CssText(css))
  }

  /** Whether `applySettingImmediately(key, …)` throws: only the theme case writes localStorage outside a `try`. */
  predicate Throws(p: Page, key: string)
  {
    key == "themeColor" && p.writesRejected
  }

  /** The cases of the switch in `applySettingImmediately`. */
  datatype Case =
    | DarkMode | ThemeColor | FontSize | BgRotationSpeed | BackgroundBlur
    | GlassEffect | AnimationSpeed | CustomCss | PerformanceMode | NoCase

  /** The case a key selects; any key without a case falls to `default`. */
  function CaseOf(key: string): (c: Case)
    ensures c == NoCase <==> key !in AppliedKeys
    ensures c == DarkMode <==> key == "darkMode"
    ensures c == ThemeColor <==> key == "themeColor"
    ensures c == FontSize <==> key == "fontSize"
    ensures c == BgRotationSpeed <==> key == "bgRotationSpeed"
    ensures c == BackgroundBlur <==> key == "backgroundBlur"
    ensures c == GlassEffect <==> key == "glassEffect"
    ensures c == AnimationSpeed <==> key == "animationSpeed"
    ensures c == CustomCss <==> key == "customCSS"
    ensures c == PerformanceMode <==> key == "performanceMode"
  {
    if key == "darkMode" then DarkMode
    else if key == "themeColor" then ThemeColor
    else if key == "fontSize" then FontSize
    else if key == "bgRotationSpeed" then BgRotationSpeed
    else if key == "backgroundBlur" then BackgroundBlur
    else if key == "glassEffect" then GlassEffect
    else if key == "animationSpeed" then AnimationSpeed
    else if key == "customCSS" then CustomCss
    else if key == "performanceMode" then PerformanceMode
    else NoCase
  }

  /** The page after `applySettingImmediately(key, value, all)` (up to the point where it throws, if it does). */
  function Effect(p: Page, key: string, value: Json, all: map<string, Json>): Page
  {
    ApplyCase(p, CaseOf(key), value, all)
  }

  /** What the case `c` of the switch does to the page. */
  function ApplyCase(p: Page, c: Case, value: Json, all: map<string, Json>): Page
  {
    match c
    case DarkMode => p.(darkClass := Truthy(value))
    case ThemeColor => WriteItem(p.(events := p.events + [ThemeChange(value)]), "themeColor", JsString(value))
    case FontSize => p.(rootFontSize := FontSizeFor(value))
    case BgRotationSpeed => p.(events := p.events + [RotationSpeedChange(value)])
    case BackgroundBlur =>
      var blur := BlurFor(value);
      p.(cssVars := p.cssVars["--backdrop-blur" := blur],
         backdropFilter := "blur(" + blur + ")", sharedFilter := "blur(" + blur + ")")
    case GlassEffect =>
      var filter := if Truthy(value) then GlassOn else "none";
      p.(cssVars := p.cssVars["--glass-effect" := filter], glassFilter := filter, sharedFilter := filter)
    case AnimationSpeed => p.(cssVars := p.cssVars["--animation-speed" := SpeedFor(value)])
    case CustomCss => WithCustomCss(p, value)
    case PerformanceMode =>
      var speed := if Truthy(value) then "0.1s" else SpeedFor(AnimationSpeedOf(all));
      p.(cssVars := p.cssVars["--animation-speed" := speed])
    case NoCase => p
  }

  /** The page without its event log: what a reader of the DOM and of localStorage can observe. */
  function Visible(p: Page): Page
  {
    p.(events := [])
  }

  /** The events `applySettingImmediately(key, value, …)` dispatches. */
  function Dispatched(key: string, value: Json): seq<Event>
  {
    match CaseOf(key)
    case ThemeColor => [ThemeChange(value)]
    case BgRotationSpeed => [RotationSpeedChange(value)]
    case _ => []
  }

  // ---------------------------------------------------------------------
  // Properties of the dispatch table

  /** The font size is 14px for "small", 18px for "large", 16px for anything else. */
  lemma FontSizeTable(p: Page, v: Json, all: map<string, Json>)
    ensures Effect(p, "fontSize", v, all).rootFontSize == "14px" <==> v == JStr("small")
    ensures Effect(p, "fontSize", v, all).rootFontSize == "18px" <==> v == JStr("large")
    ensures Effect(p, "fontSize", v, all).rootFontSize == "16px" <==> v != JStr("small") && v != JStr("large")
  {
  }

  /** The blur radius goes to `--backdrop-blur`: 2px for "low", 12px for "high", 6px otherwise. */
  lemma BlurTable(p: Page, v: Json, all: map<string, Json>)
    ensures Effect(p, "backgroundBlur", v, all).cssVars["--backdrop-blur"]
         == (if v == JStr("low") then "2px" else if v == JStr("high") then "12px" else "6px")
    ensures Effect(p, "backgroundBlur", v, all).backdropFilter
         == "blur(" + Effect(p, "backgroundBlur", v, all).cssVars["--backdrop-blur"] + ")"
    ensures Effect(p, "backgroundBlur", v, all).sharedFilter == Effect(p, "backgroundBlur", v, all).backdropFilter
  {
  }

  /**
   * On an element both selectors match, the later of the blur and glass cases wins:
   * after blur then glass it carries the glass filter, while blur-only elements keep the blur.
   */
  lemma GlassOverridesBlur(p: Page, b: Json, g: Json, all: map<string, Json>)
    ensures Effect(Effect(p, "backgroundBlur", b, all), "glassEffect", g, all).sharedFilter
         == if Truthy(g) then GlassOn else "none"
    ensures Effect(Effect(p, "backgroundBlur", b, all), "glassEffect", g, all).backdropFilter
         == "blur(" + BlurFor(b) + ")"
  {
  }

  /** `--animation-speed` is 0.5s for "slow", 0.2s for "fast", 0.3s otherwise. */
  lemma SpeedTable(p: Page, v: Json, all: map<string, Json>)
    ensures Effect(p, "animationSpeed", v, all).cssVars["--animation-speed"]
         == (if v == JStr("slow") then "0.5s" else if v == JStr("fast") then "0.2s" else "0.3s")
  {
  }

  /** The root has the `dark` class exactly when the darkMode value is truthy. */
  lemma DarkModeClass(p: Page, v: Json, all: map<string, Json>)
    ensures Effect(p, "darkMode", v, all).darkClass <==> Truthy(v)
    ensures Visible(Effect(p, "darkMode", v, all)).(darkClass := p.darkClass) == Visible(p)
  {
  }

  /** A setting the switch has no case for changes nothing. */
  lemma UnlistedNoOp(p: Page, key: string, v: Json, all: map<string, Json>)
    requires key !in AppliedKeys
    ensures Effect(p, key, v, all) == p && !Throws(p, key)
  {
  }

  /**
   * Performance mode on sets `--animation-speed` to 0.1s whatever animationSpeed is;
   * off, it restores the value animationSpeed implies.
   */
  lemma PerformanceModePrecedence(p: Page, v: Json, all: map<string, Json>)
    ensures Truthy(v) ==> Effect(p, "performanceMode", v, all).cssVars["--animation-speed"] == "0.1s"
    ensures !Truthy(v) ==>
      Effect(p, "performanceMode", v, all).cssVars["--animation-speed"]
      == Effect(p, "animationSpeed", AnimationSpeedOf(all), all).cssVars["--animation-speed"]
  {
  }

  /** The custom style element is created at most once: afterwards only its text is replaced. */
  lemma CustomCssOnce(p: Page, css: Json, all: map<string, Json>)
    ensures Effect(p, "customCSS", css, all).customStyleExists
    ensures Effect(p, "customCSS", css, all).customStyleText == CssText(css)
    ensures p.customStyleExists ==> Effect(p, "customCSS", css, all) == p.(customStyleText := CssText(css))
  {
  }

  /** Only the theme case writes localStorage. */
  lemma CaseStore(p: Page, c: Case, v: Json, all: map<string, Json>)
    ensures ApplyCase(p, c, v, all).store
         == if c == ThemeColor && !p.writesRejected then p.store["themeColor" := JsString(v)] else p.store
    ensures ApplyCase(p, c, v, all).writesRejected == p.writesRejected
  {
    match c
    case ThemeColor =>
    case _ =>
  }

  /** The applier's only localStorage write is the theme case, which stores `String(value)` under "themeColor". */
  lemma EffectStore(p: Page, key: string, v: Json, all: map<string, Json>)
    ensures Effect(p, key, v, all).store
         == if key == "themeColor" && !p.writesRejected then p.store["themeColor" := JsString(v)] else p.store
    ensures Effect(p, key, v, all).writesRejected == p.writesRejected
  {
    CaseStore(p, CaseOf(key), v, all);
  }

  /** Two sets of CSS variables agree on `name`: both lack it, or both hold the same value. */
  predicate SameVar(a: map<string, string>, b: map<string, string>, name: string)
  {
    (name in a <==> name in b) && (name in a ==> a[name] == b[name])
  }

  /** Which part of the page each case may write. */
  lemma CaseFrame(p: Page, c: Case, v: Json, all: map<string, Json>)
    ensures c != DarkMode ==> ApplyCase(p, c, v, all).darkClass == p.darkClass
    ensures c != FontSize ==> ApplyCase(p, c, v, all).rootFontSize == p.rootFontSize
    ensures c != AnimationSpeed && c != PerformanceMode
            ==> SameVar(ApplyCase(p, c, v, all).cssVars, p.cssVars, "--animation-speed")
    ensures c != BackgroundBlur && c != GlassEffect ==> ApplyCase(p, c, v, all).sharedFilter == p.sharedFilter
  {
    match c
    case BackgroundBlur =>
      assert ApplyCase(p, c, v, all).cssVars == p.cssVars["--backdrop-blur" := BlurFor(v)];
    case GlassEffect =>
      assert ApplyCase(p, c, v, all).cssVars == p.cssVars["--glass-effect" := if Truthy(v) then GlassOn else "none"];
    case _ =>
  }

  /** Only the dark-mode case touches the class, only the font-size case the root font size, and only animationSpeed and performanceMode the animation speed. */
  lemma EffectFrame(p: Page, key: string, v: Json, all: map<string, Json>)
    ensures key != "darkMode" ==> Effect(p, key, v, all).darkClass == p.darkClass
    ensures key != "fontSize" ==> Effect(p, key, v, all).rootFontSize == p.rootFontSize
    ensures key != "animationSpeed" && key != "performanceMode"
            ==> SameVar(Effect(p, key, v, all).cssVars, p.cssVars, "--animation-speed")
    ensures key != "backgroundBlur" && key != "glassEffect" ==> Effect(p, key, v, all).sharedFilter == p.sharedFilter
  {
    CaseFrame(p, CaseOf(key), v, all);
  }

  /** The applier appends to the event log exactly the events its case dispatches. */
  lemma EffectEvents(p: Page, key: string, v: Json, all: map<string, Json>)
    ensures Effect(p, key, v, all).events == p.events + Dispatched(key, v)
  {
    var c := CaseOf(key);
    if c == ThemeColor {
      assert Dispatched(key, v) == [ThemeChange(v)];
    } else if c == BgRotationSpeed {
      assert Dispatched(key, v) == [RotationSpeedChange(v)];
    } else {
      assert Dispatched(key, v) == [];
      assert ApplyCase(p, c, v, all).events == p.events;
    }
  }

  /** A case that dispatches no event sets fields to values that do not depend on the page, so running it again changes nothing. */
  lemma SilentCaseIdempotent(p: Page, c: Case, v: Json, all: map<string, Json>)
    requires c != ThemeColor && c != BgRotationSpeed
    ensures ApplyCase(ApplyCase(p, c, v, all), c, v, all) == ApplyCase(p, c, v, all)
  {
    match c
    case DarkMode => RerunDarkMode(p, v, all);
    case FontSize => RerunFontSize(p, v, all);
    case BackgroundBlur => RerunBackgroundBlur(p, v, all);
    case GlassEffect => RerunGlassEffect(p, v, all);
    case AnimationSpeed => RerunAnimationSpeed(p, v, all);
    case CustomCss => RerunCustomCss(p, v, all);
    case PerformanceMode => RerunPerformanceMode(p, v, all);
    case NoCase => RerunNoCase(p, v, all);
  }

  lemma RerunDarkMode(p: Page, v: Json, all: map<string, Json>)
    ensures ApplyCase(ApplyCase(p, DarkMode, v, all), DarkMode, v, all) == ApplyCase(p, DarkMode, v, all)
  {
  }

  lemma RerunFontSize(p: Page, v: Json, all: map<string, Json>)
    ensures ApplyCase(ApplyCase(p, FontSize, v, all), FontSize, v, all) == ApplyCase(p, FontSize, v, all)
  {
  }

  lemma RerunBackgroundBlur(p: Page, v: Json, all: map<string, Json>)
    ensures ApplyCase(ApplyCase(p, BackgroundBlur, v, all), BackgroundBlur, v, all) == ApplyCase(p, BackgroundBlur, v, all)
  {
  }

  lemma RerunGlassEffect(p: Page, v: Json, all: map<string, Json>)
    ensures ApplyCase(ApplyCase(p, GlassEffect, v, all), GlassEffect, v, all) == ApplyCase(p, GlassEffect, v, all)
  {
  }

  lemma RerunAnimationSpeed(p: Page, v: Json, all: map<string, Json>)
    ensures ApplyCase(ApplyCase(p, AnimationSpeed, v, all), AnimationSpeed, v, all) == ApplyCase(p, AnimationSpeed, v, all)
  {
  }

  lemma RerunCustomCss(p: Page, v: Json, all: map<string, Json>)
    ensures ApplyCase(ApplyCase(p, CustomCss, v, all), CustomCss, v, all) == ApplyCase(p, CustomCss, v, all)
  {
  }

  lemma RerunPerformanceMode(p: Page, v: Json, all: map<string, Json>)
    ensures ApplyCase(ApplyCase(p, PerformanceMode, v, all), PerformanceMode, v, all) == ApplyCase(p, PerformanceMode, v, all)
  {
  }

  lemma RerunNoCase(p: Page, v: Json, all: map<string, Json>)
    ensures ApplyCase(ApplyCase(p, NoCase, v, all), NoCase, v, all) == ApplyCase(p, NoCase, v, all)
  {
  }

  lemma CaseIdempotent(p: Page, c: Case, v: Json, all: map<string, Json>)
    ensures Visible(ApplyCase(ApplyCase(p, c, v, all), c, v, all)) == Visible(ApplyCase(p, c, v, all))
  {
    var once := ApplyCase(p, c, v, all);
    var twice := ApplyCase(once, c, v, all);
    if c == ThemeColor {
      assert twice.store == once.store;
      assert twice.(events := once.events) == once;
    } else if c == BgRotationSpeed {
      assert twice.(events := once.events) == once;
    } else {
      SilentCaseIdempotent(p, c, v, all);
    }
  }

  /**
   * Applying the same change twice leaves the page as applying it once does;
   * only the event log differs (see `EffectEvents`).
   */
  lemma EffectIdempotent(p: Page, key: string, v: Json, all: map<string, Json>)
    ensures Visible(Effect(Effect(p, key, v, all), key, v, all)) == Visible(Effect(p, key, v, all))
  {
    CaseIdempotent(p, CaseOf(key), v, all);
  }

  // ---------------------------------------------------------------------
  // The page as a mutable object

  class Environment {
    var darkClass: bool
    var rootFontSize: string
    var cssVars: map<string, string>
    var customStyleExists: bool
    var customStyleText: string
    var backdropFilter: string
    var glassFilter: string
    var sharedFilter: string
    var events: seq<Event>
    var store: map<string, string>
    var writesRejected: bool

    /** The page these fields describe. */
    function State(): Page
      reads this
    {
      Page(darkClass, rootFontSize, cssVars, customStyleExists, customStyleText,
           backdropFilter, glassFilter, sharedFilter, events, store, writesRejected)
    }

    /** A freshly loaded page over the stored texts `store`. */
    constructor (store: map<string, string>)
      ensures State() == Page(false, "", map[], false, "", "", "", "", [], store, false)
    {
      darkClass, rootFontSize, cssVars := false, "", map[];
      customStyleExists, customStyleText := false, "";
      backdropFilter, glassFilter, sharedFilter := "", "", "";
      events := [];
      this.store := store;
      writesRejected := false;
    }

    /** `localStorage.setItem(key, text)`; `ok` is false where it throws. */
    method SetItem(key: string, text: string) returns (ok: bool)
      modifies this
      ensures ok == !old(writesRejected)
      ensures State() == WriteItem(old(State()), key, text)
    {
      ok := !writesRejected;
      if ok {
        store := store[key := text];
      }
    }

    /** `applyCustomCSS(css)`. */
    method ApplyCustomCss(css: Json)
      modifies this
      ensures State() == WithCustomCss(old(State()), css)
    {
      if !customStyleExists {
        customStyleExists := true;
      }
      customStyleText := CssText(css);
    }

    /** `applySettingImmediately(key, value, all)`; `threw` tells whether it ended by throwing. */
    method ApplySettingImmediately(key: string, value: Json, all: map<string, Json>) returns (threw: bool)
      modifies this
      ensures threw == Throws(old(State()), key)
      ensures State() == Effect(old(State()), key, value, all)
    {
      threw := RunCase(CaseOf(key), value, all);
    }

    /** The cases of the switch that restyle the page through CSS custom properties. */
    method RunStyleCase(c: Case, value: Json, all: map<string, Json>)
      requires c == BackgroundBlur || c == GlassEffect || c == AnimationSpeed || c == PerformanceMode
      modifies this
      ensures State() == ApplyCase(old(State()), c, value, all)
    {
      if c == BackgroundBlur {
        var blur := BlurFor(value);
        cssVars := cssVars["--backdrop-blur" := blur];
        backdropFilter := "blur(" + blur + ")";
        sharedFilter := "blur(" + blur + ")";
      } else if c == GlassEffect {
        var filter := if Truthy(value) then GlassOn else "none";
        cssVars := cssVars["--glass-effect" := filter];
        glassFilter := filter;
        sharedFilter := filter;
      } else if c == AnimationSpeed {
        cssVars := cssVars["--animation-speed" := SpeedFor(value)];
      } else if Truthy(value) {
        cssVars := cssVars["--animation-speed" := "0.1s"];
      } else {
        cssVars := cssVars["--animation-speed" := SpeedFor(AnimationSpeedOf(all))];
      }
    }

    /** The body of one case of the switch in `applySettingImmediately`. */
    method RunCase(c: Case, value: Json, all: map<string, Json>) returns (threw: bool)
      modifies this
      ensures threw == (c == ThemeColor && old(writesRejected))
      ensures State() == ApplyCase(old(State()), c, value, all)
    {
      threw := false;
      match c
      case DarkMode =>
        darkClass := Truthy(value);
      case ThemeColor =>
        events := events + [ThemeChange(value)];
        var ok := SetItem("themeColor", JsString(value));
        threw := !ok;
      case FontSize =>
        rootFontSize := FontSizeFor(value);
      case BgRotationSpeed =>
        events := events + [RotationSpeedChange(value)];
      case BackgroundBlur =>
        RunStyleCase(c, value, all);
      case GlassEffect =>
        RunStyleCase(c, value, all);
      case AnimationSpeed =>
        RunStyleCase(c, value, all);
      case CustomCss =>
        ApplyCustomCss(value);
      case PerformanceMode =>
        RunStyleCase(c, value, all);
      case NoCase =>
    }
  }
}
