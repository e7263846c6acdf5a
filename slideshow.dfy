/** The background slideshow: its rotation interval, the image index, and the theme it starts with. */
module Slideshow {
  import opened Json
  import Settings

  const BackgroundImages: seq<string> := [
    "/backgrounds/bg1.jpeg", "/backgrounds/bg2.jpeg", "/backgrounds/bg3.jpeg",
    "/backgrounds/bg4.jpeg", "/backgrounds/bg5.jpeg", "/backgrounds/bg6.jpeg",
    "/backgrounds/bg7.jpeg", "/backgrounds/bg8.jpeg", "/backgrounds/bg9.jpeg",
    "/backgrounds/bg10.jpeg", "/backgrounds/bg11.jpeg", "/backgrounds/bg12.jpeg",
    "/backgrounds/bg13.jpeg", "/backgrounds/bg14.jpeg", "/backgrounds/bg15.jpeg"
  ]

  /** `colorThemes`: the gradient of each theme name. */
  const ColorThemes: map<string, string> := map[
    "primary" := "from-blue-500 to-purple-600",
    "secondary" := "from-emerald-500 to-teal-600",
    "accent" := "from-orange-500 to-red-500",
    "neutral" := "from-gray-500 to-slate-600"
  ]

  /** The themes the slideshow cycles through when none is saved. */
  const ThemeCycle: seq<string> := ["primary", "secondary", "accent", "neutral"]

  /** `localStorage.getItem('bgRotationSpeed') || '5min'`: the rotation speed on mount and after a storage event. */
  function RotationSpeed(store: map<string, string>): (r: string)
    ensures r != ""
    ensures "bgRotationSpeed" in store && store["bgRotationSpeed"] != "" ==> r == store["bgRotationSpeed"]
    ensures "bgRotationSpeed" !in store || store["bgRotationSpeed"] == "" ==> r == "5min"
  {
    if "bgRotationSpeed" in store && store["bgRotationSpeed"] != "" then store["bgRotationSpeed"] else "5min"
  }

  /** The rotation interval in milliseconds. */
  function IntervalMs(speed: string): nat
  {
    if speed == "2min" then 120000 else if speed == "10min" then 600000 else 300000
  }

  /** Two and ten minutes are recognised; every other speed rotates every five minutes. */
  lemma IntervalTable(speed: string)
    ensures IntervalMs(speed) == 120000 <==> speed == "2min"
    ensures IntervalMs(speed) == 600000 <==> speed == "10min"
    ensures IntervalMs(speed) == 300000 <==> speed != "2min" && speed != "10min"
    ensures IntervalMs(speed) == 60000 * (if speed == "2min" then 2 else if speed == "10min" then 10 else 5)
  {
  }

  /**
   * The text `updateSetting` stores for a rotation speed is read back by the slideshow's reader
   * as that speed, a blank one giving five minutes. The slideshow runs that reader when it mounts
   * and on a `storage` event, which only another tab raises.
   */
  lemma RotationSpeedFromSetting(store: map<string, string>, speed: string)
    ensures RotationSpeed(store["bgRotationSpeed" := Settings.Serialise(JStr(speed))])
         == if speed == "" then "5min" else speed
  {
  }

  /** `backgroundImages.length`. */
  const ImageCount := 15

  lemma ImageCountIs()
    ensures |BackgroundImages| == ImageCount
  {
  }

  /** The index after one tick: `(prev + 1) % backgroundImages.length`. */
  function NextIndex(prev: nat): (r: nat)
    ensures r < ImageCount
    ensures prev < ImageCount - 1 ==> r == prev + 1
    ensures prev == ImageCount - 1 ==> r == 0
  {
    (prev + 1) % ImageCount
  }

  /** The index after `ticks` ticks. */
  function Advance(index: nat, ticks: nat): nat
  {
    if ticks == 0 then index else NextIndex(Advance(index, ticks - 1))
  }

  /** Adding one commutes with taking the remainder by the image count. */
  lemma ModNext(m: nat)
    ensures (m % ImageCount + 1) % ImageCount == (m + 1) % ImageCount
  {
    var q := m / ImageCount;
    assert m == q * ImageCount + m % ImageCount;
    if m % ImageCount == ImageCount - 1 {
      assert m + 1 == (q + 1) * ImageCount;
    } else {
      assert m + 1 == q * ImageCount + (m % ImageCount + 1);
    }
  }

  /** After `ticks` ticks the index is the start moved on by `ticks`, modulo the image count. */
  lemma {:induction false} AdvanceIs(index: nat, ticks: nat)
    requires index < ImageCount
    ensures Advance(index, ticks) == (index + ticks) % ImageCount
  {
    if ticks > 0 {
      var a := Advance(index, ticks - 1);
      assert a == (index + ticks - 1) % ImageCount by {
        AdvanceIs(index, ticks - 1);
      }
      assert Advance(index, ticks) == (a + 1) % ImageCount;
      ModNext(index + ticks - 1);
    }
  }

  /** Every image is shown once per cycle: after as many ticks as there are images the index is back where it started. */
  lemma FullCycle(index: nat)
    requires index < ImageCount
    ensures Advance(index, ImageCount) == index
    ensures forall t :: 0 < t < ImageCount ==> Advance(index, t) != index
  {
    AdvanceIs(index, ImageCount);
    forall t | 0 < t < ImageCount
      ensures Advance(index, t) != index
    {
      AdvanceIs(index, t);
    }
  }

  /** The theme announced once the images have loaded: the saved theme, or the one the image index selects. */
  function InitialTheme(store: map<string, string>, index: nat): (r: string)
    ensures "themeColor" in store && store["themeColor"] != "" ==> r == store["themeColor"]
    ensures !("themeColor" in store && store["themeColor"] != "") ==> r in ColorThemes && r == ThemeCycle[index % 4]
  {
    if "themeColor" in store && store["themeColor"] != "" then store["themeColor"]
    else ThemeCycle[index % |ThemeCycle|]
  }

  /** Without a saved theme, the theme follows the image index with period four. */
  lemma InitialThemePeriod(store: map<string, string>, index: nat)
    ensures InitialTheme(store, index + 4) == InitialTheme(store, index)
  {
  }
}
