# Personal dashboard settings store, in Dafny

This project models the stateful core of the personal dashboard, a single React
component file (`src/PersonalDashboard.jsx`). The model covers:

- **The settings store of `useSettings`.**
  - The table of 25 typed defaults.
  - The initialiser that decodes localStorage by the type of each default.
  - `updateSetting`, which writes localStorage and then applies the change.
  - The mount-time pass that applies every setting.
  - The cross-tab `storage` event handler.
- **The effect applier.** `applySettingImmediately` and `applyCustomCSS`, acting on a model of the page.
- **The small helpers around them.**
  - `lsGet`/`lsSet`.
  - The to-do panel's add/toggle/remove, completed count, daily reset and persistence.
  - The shortcut list and the add-shortcut form.
  - The background slideshow's interval, index and starting theme.
  - The clock's day period.
  - The search bar's dispatch.
  - The news page's title de-duplication.

Modules, one file each:

- `Wrappers`: `Option`.
- `Json` (json.dfy):
  - JavaScript values as a datatype.
  - A concrete `JSON.stringify`/`JSON.parse` pair over integers, strings, arrays and objects, with the round trip `Parse(Stringify(j)) == Some(j)` proved.
  - The coercions `String(v)` and truthiness.
- `Text` (text.dfy): `trim`, using the ECMAScript white-space set, plus `startsWith` and `endsWith`.
- `Seqs` (seqs.dfy): `Array.prototype.filter`.
- `Settings` (settings.dfy):
  - The defaults table and its key order.
  - The load decode.
  - The text `updateSetting` stores.
  - The decode applied to another tab's change.
- `Effects` (effects.dfy):
  - The page as a value (`Page`) and the applier's dispatch as a function of it (`Effect`).
  - The class `Environment`: the mutable page with methods for `localStorage.setItem`, `applyCustomCSS` and `applySettingImmediately`, each proved against those functions.
- `Store` (store.dfy):
  - The class `SettingsStore`, holding the snapshot and the environment.
  - Its constructor runs the load loop (`Initialise`).
  - Its methods are `UpdateSetting`, `HandleStorageChange` and `ApplyAllOnMount`, each proved against the pure specification in the same module.
  - Lemmas on reload, cross-tab mirroring and the mount-time pass.
- `LocalStorage` (storage.dfy), `Todos`, `Shortcuts`, `Slideshow`, `Clock`, `Search`, `News`: the pure widget logic, as functions over sequences with lemmas.

### Behaviour of the code worth knowing

- **Storage events do not re-run the applier.** `handleStorageChange` only replaces the snapshot entry; it neither calls the applier nor writes localStorage (src/PersonalDashboard.jsx:91-114). A change from another tab therefore does not restyle this page until the next mount.
- **The theme case can throw.** The theme case writes localStorage outside any `try` (src/PersonalDashboard.jsx:140).
  - When the store rejects writes, `updateSetting('themeColor', …)` throws from inside the state updater, and no code in the file catches it.
  - The model stops at the throw: `UpdateSetting` reports it and leaves its snapshot as it was. What React does next with an error thrown during an update is not modelled.
  - For every other key a rejected write is swallowed and the snapshot is still replaced.
  - `Effects.Throws` and `Store.SettingsStore.UpdateSetting` state this.
- **Two tabs can disagree about a value.**
  - A string setting holding the text "true" or "false", or text that parses as bracketed JSON, changes type when another tab receives it.
  - A fresh load of that tab reads it back as the string.
  - `Store.MirrorUpdate` characterises exactly which values cross tabs unchanged; `Store.CrossTabTurnsStringIntoBoolean` gives an instance.
- **The glass case overrides the chosen blur on some panels.**
  - Some elements match both the blur selector (src/PersonalDashboard.jsx:164) and the glass selector (src/PersonalDashboard.jsx:176), such as the `backdrop-blur-sm bg-white/95` to-do panel. Both cases write the same inline `backdropFilter` on them.
  - The later case wins. On mount `glassEffect` comes after `backgroundBlur`, so the chosen blur never shows there.
  - `Effects.GlassOverridesBlur` and `Store.MountSharedFilter` state this.
- **Idempotence does not cover the event log.** Applying the same change twice leaves the visible page as once does, but the `themeChange` and `bgRotationSpeedChange` events are dispatched again. `Effects.EffectIdempotent` compares pages without their event log, and `Effects.EffectEvents` states what the log gains.
- **A speed change in the same tab does not reach the slideshow.**
  - The applier dispatches `bgRotationSpeedChange` (src/PersonalDashboard.jsx:150-152), but the slideshow listens only to `storage` and `themeChange` (src/PersonalDashboard.jsx:721-739).
  - A `storage` event fires only in other tabs, so the new speed is read when the slideshow next mounts.
- **The "AI" search opens one page twice.** It opens You.com twice, as written (src/PersonalDashboard.jsx:1064-1070).
- **The search bar ignores the `defaultSearch` setting.** It starts at "both" whatever that setting says.

## Model

| member | source | states |
|---|---|---|
| Json.Stringify | src/PersonalDashboard.jsx:70 | `JSON.stringify` of a value. Its meaning is the round trip of ParseStringify, and JsStringOfScalar relates it to `String(v)`. |
| Json.Parse | src/PersonalDashboard.jsx:45-56 | `JSON.parse`, failing on malformed text. ParseStringify states that it inverts Stringify, and LsGet and LoadMalformed state what a failure leads to. |
| Json.JsString | src/PersonalDashboard.jsx:70 | `String(v)`. JsStringOfScalar states where it agrees with Stringify, and EffectStore states it is the theme text that gets stored. |
| Json.Truthy | src/PersonalDashboard.jsx:126-132 | JavaScript truthiness. DarkModeClass states that it alone decides the dark class. |
| Json.ParseStringify | src/PersonalDashboard.jsx:45-70 | The text `JSON.stringify` writes parses back to the same value, for every value. |
| Json.JsStringOfScalar | src/PersonalDashboard.jsx:70 | For null, booleans and numbers, `String(v)` and `JSON.stringify(v)` give the same text. |
| Text.Lead | src/PersonalDashboard.jsx:1307 | The length of the text's leading run of white space: everything before it is white space and the character after it is not. |
| Text.Trim | src/PersonalDashboard.jsx:1307 | `trim()` returns the part of the text that starts after its leading white space. What follows that part is all white space, and the part neither starts nor ends with white space. |
| Text.TrimKeeps | src/PersonalDashboard.jsx:1307 | Text that neither starts nor ends with white space is its own trim. |
| Text.TrimIdempotent | src/PersonalDashboard.jsx:1307 | Trimming a trimmed text changes nothing. |
| Text.TrimEmpty | src/PersonalDashboard.jsx:1307 | Trimming gives the empty text exactly when the text is all white space, which is the blank test `!text.trim()`. |
| Seqs.Filter | src/PersonalDashboard.jsx:1313 | `filter` keeps exactly the elements that pass, and never lengthens the list. |
| Settings.DefaultKeysCover | src/PersonalDashboard.jsx:12-38 | The key order lists exactly the settings of the defaults table. |
| Settings.DefaultKeysDistinct | src/PersonalDashboard.jsx:12-38 | The key order lists no setting twice. |
| Settings.LoadSnapshot | src/PersonalDashboard.jsx:40-59 | The loaded snapshot has exactly the keys of the defaults table. |
| Settings.LoadEmpty | src/PersonalDashboard.jsx:12-59 | With nothing stored, the snapshot is the defaults table. |
| Settings.LoadIgnoresUnknown | src/PersonalDashboard.jsx:41-44 | Stored keys outside the table never affect the loaded snapshot. |
| Settings.LoadAbsentOrRaw | src/PersonalDashboard.jsx:44-59 | A key missing from the store takes its default. A stored string setting keeps its raw text. |
| Settings.LoadBoolean | src/PersonalDashboard.jsx:45-46 | A boolean setting loads as a boolean. It is `true` exactly when its stored text is "true". |
| Settings.LoadMalformed | src/PersonalDashboard.jsx:47-55 | Unparsable text for an object setting gives that setting's default, and every other key loads as before. |
| Settings.LoadObject | src/PersonalDashboard.jsx:47-55 | Parseable stored text for an object setting loads as its parse. |
| Settings.DecodeSaved | src/PersonalDashboard.jsx:45-56 | The decode by the default's type. LoadBoolean, LoadAbsentOrRaw, LoadMalformed and LoadObject state it per type, and DecodeSerialise states which values survive it. |
| Settings.Serialise | src/PersonalDashboard.jsx:70 | The text `updateSetting` stores. DecodeSerialise states its round trip through a reload, and Store.MirrorUpdate its round trip through another tab. |
| Settings.ExternalDecode | src/PersonalDashboard.jsx:94-110 | The decode of another tab's text. ExternalChange states how it enters the snapshot, and Store.MirrorUpdate and Store.CrossTabTurnsStringIntoBoolean state what it rebuilds. |
| Settings.DecodeSerialise | src/PersonalDashboard.jsx:45-70 | Decoding the text `updateSetting` stores gives back the value exactly when the value has the type of the key's default. |
| Settings.ExternalChange | src/PersonalDashboard.jsx:91-113 | An event with a null, empty or unknown key leaves the snapshot unchanged. Otherwise only that key changes, to the decoded new value, and the key set is kept. |
| Effects.WithCustomCss | src/PersonalDashboard.jsx:215-223 | `applyCustomCSS` on the page value. CustomCssOnce states its result, and Environment.ApplyCustomCss is proved against it. |
| Effects.Throws | src/PersonalDashboard.jsx:134-141 | When the applier throws: the theme with writes rejected. Environment.RunCase, Environment.ApplySettingImmediately and SettingsStore.UpdateSetting state that exactly this throws. |
| Effects.ApplyCase | src/PersonalDashboard.jsx:125-213 | One case of the switch on the page value. FontSizeTable, BlurTable, SpeedTable, DarkModeClass, CaseStore, CaseFrame, CaseIdempotent and SilentCaseIdempotent state what each case does and leaves alone. |
| Effects.Effect | src/PersonalDashboard.jsx:122-214 | The applier on the page value. EffectStore, EffectFrame, EffectEvents, EffectIdempotent and PerformanceModePrecedence state its effects, and Environment.ApplySettingImmediately is proved against it. |
| Effects.WriteItem | src/PersonalDashboard.jsx:69-73 | `setItem` changes only the store, and only that one key; a rejected write changes nothing. |
| Effects.CaseOf | src/PersonalDashboard.jsx:125-213 | A key has no case, and falls to `default`, exactly when it is not one of the nine switched keys. Each of the nine cases is selected by exactly its own key. |
| Effects.FontSizeTable | src/PersonalDashboard.jsx:143-148 | "small" gives 14px and "large" gives 18px. Every other value gives 16px. Each result holds exactly for its inputs. |
| Effects.BlurTable | src/PersonalDashboard.jsx:154-170 | "low" gives 2px, "high" gives 12px and anything else 6px, for `--backdrop-blur` and the backdrop filter, including on the elements the glass selector also matches. |
| Effects.GlassOverridesBlur | src/PersonalDashboard.jsx:154-185 | After the blur case then the glass case, elements both selectors match carry the glass filter, while blur-only elements keep the blur. |
| Effects.SpeedTable | src/PersonalDashboard.jsx:190-195 | "slow" gives 0.5s, "fast" gives 0.2s and anything else 0.3s, written to `--animation-speed`. |
| Effects.DarkModeClass | src/PersonalDashboard.jsx:126-132 | The `dark` class is present exactly when the value is truthy, and nothing else visible changes. |
| Effects.UnlistedNoOp | src/PersonalDashboard.jsx:211-212 | A key without a case changes nothing and does not throw. |
| Effects.PerformanceModePrecedence | src/PersonalDashboard.jsx:201-209 | When on, the animation speed is 0.1s whatever animationSpeed says. When off, it is what animationSpeed's table gives for the snapshot's value. |
| Effects.CustomCssOnce | src/PersonalDashboard.jsx:215-223 | After the custom CSS case, the style element exists and holds the text. When the element already existed, only its text changes. |
| Effects.CaseStore | src/PersonalDashboard.jsx:125-213 | Among the cases, only the theme writes localStorage, and only when writes are accepted. No case changes whether writes are rejected. |
| Effects.EffectStore | src/PersonalDashboard.jsx:134-141 | The applier writes localStorage only in the theme case, which stores `String(value)` under "themeColor". |
| Effects.CaseFrame | src/PersonalDashboard.jsx:125-213 | Only the dark-mode case writes the class and only the font-size case the root font size. Only animationSpeed and performanceMode write `--animation-speed`: every other case leaves it present with the same value, or absent. Only the blur and glass cases write the filter of elements both selectors match. |
| Effects.EffectFrame | src/PersonalDashboard.jsx:125-213 | The same frame as CaseFrame, stated per key. |
| Effects.EffectEvents | src/PersonalDashboard.jsx:134-152 | The event log grows by exactly the events the key's case dispatches. |
| Effects.SilentCaseIdempotent | src/PersonalDashboard.jsx:125-213 | A case that dispatches no event leaves the page exactly as it was when run a second time. |
| Effects.CaseIdempotent | src/PersonalDashboard.jsx:125-223 | Applying a case twice leaves the page, apart from its event log, as applying it once. |
| Effects.EffectIdempotent | src/PersonalDashboard.jsx:122-223 | Applying the same (key, value, snapshot) twice leaves the page, apart from its event log, as applying it once. |
| Effects.Environment.SetItem | src/PersonalDashboard.jsx:140 | `localStorage.setItem` on the page reports whether writes are accepted. The new page state is WriteItem of the old. |
| Effects.Environment.ApplyCustomCss | src/PersonalDashboard.jsx:215-223 | `applyCustomCSS` leaves the page as WithCustomCss of the old page. |
| Effects.Environment.RunCase | src/PersonalDashboard.jsx:125-213 | One case of the switch throws exactly when it is the theme and writes are rejected. It leaves the page ApplyCase of the old page. |
| Effects.Environment.RunStyleCase | src/PersonalDashboard.jsx:154-209 | The blur, glass, animation-speed and performance cases set their CSS variables and filters as ApplyCase specifies. |
| Effects.Environment.ApplySettingImmediately | src/PersonalDashboard.jsx:122-214 | It throws exactly in the theme case with writes rejected. The new page is Effect of the old. |
| Store.UpdatedPage | src/PersonalDashboard.jsx:62-80 | The page after `updateSetting`. UpdatePersists and ReloadAfterUpdate state what it stores, and SettingsStore.UpdateSetting is proved against it. |
| Store.ApplyAll | src/PersonalDashboard.jsx:83-87 | The mount pass over a run of keys. ApplyAllStops, ApplyAllAppend, ApplyAllFrame, the Last* and Mount* lemmas state its effects, and SettingsStore.ApplyEach is proved against it. |
| Store.UpdatePersists | src/PersonalDashboard.jsx:65-76 | An update stores the value's text under its key and changes no other stored key. For the theme the text is `String(value)`. With writes rejected the store is unchanged. |
| Store.ReloadAfterUpdate | src/PersonalDashboard.jsx:40-80 | After an accepted update, a reload gives the value back exactly when it has the type of the key's default. Every other known key reloads as before. |
| Store.ReloadDropsUnknown | src/PersonalDashboard.jsx:41-70 | A key outside the table is persisted, but a reload does not bring it back. |
| Store.MirrorUpdate | src/PersonalDashboard.jsx:70-109 | Another tab rebuilds a value from its stored text exactly when the value is one of these: a boolean, an array, an object, or a string that neither spells a boolean nor parses as bracketed JSON. |
| Store.CrossTabTurnsStringIntoBoolean | src/PersonalDashboard.jsx:45-98 | The custom CSS text "true" becomes the boolean `true` in another tab, while a reload reads it as the string. |
| Store.ApplyAllStops | src/PersonalDashboard.jsx:83-87 | Once a key throws, the keys after it are not applied. |
| Store.ApplyAllAppend | src/PersonalDashboard.jsx:83-87 | With writes accepted, no key throws. Applying two runs of keys is applying one after the other. |
| Store.ApplyAllFrame | src/PersonalDashboard.jsx:83-87 | A pass over keys that never name the setting leaves the class, the font size, the animation speed (including an absent `--animation-speed`) and the shared blur/glass filter as they were. |
| Store.LastDarkMode | src/PersonalDashboard.jsx:83-132 | The last darkMode of a pass decides the dark class. |
| Store.LastFontSize | src/PersonalDashboard.jsx:83-148 | The last fontSize of a pass decides the root font size. |
| Store.LastPerformanceMode | src/PersonalDashboard.jsx:83-209 | A performanceMode with no speed key after it decides the animation speed. |
| Store.LastGlassEffect | src/PersonalDashboard.jsx:83-185 | A glassEffect with no blur or glass key after it decides the filter of elements both selectors match. |
| Store.MountDarkClass | src/PersonalDashboard.jsx:83-87 | With writes accepted, the mount pass does not throw, and afterwards the dark class follows darkMode. |
| Store.MountFontSize | src/PersonalDashboard.jsx:83-87 | With writes accepted, after mount the root font size follows fontSize. |
| Store.MountAnimationSpeed | src/PersonalDashboard.jsx:83-87 | With writes accepted, after mount the animation speed is 0.1s under performance mode and otherwise follows the snapshot's animationSpeed. |
| Store.MountSharedFilter | src/PersonalDashboard.jsx:83-185 | With writes accepted, after mount the elements both selectors match carry the glass setting's filter, whatever the blur setting says. |
| Store.RejectedAtTheme | src/PersonalDashboard.jsx:83-141 | With writes rejected, a pass whose first keys are darkMode and the theme throws at the theme. Only the dark class has been applied. |
| Store.MountRejected | src/PersonalDashboard.jsx:83-141 | With writes rejected, the mount pass throws at the theme, the second key. Only the dark class has been applied; font size, CSS variables and store are untouched. |
| Store.ReadSaved | src/PersonalDashboard.jsx:40-57 | The loop over the keys reads exactly the keys present in localStorage, each decoded by the type of its default (DecodeSaved, which falls back to the default where the parse fails). Absent keys are skipped. |
| Store.Initialise | src/PersonalDashboard.jsx:40-59 | The load loop over the default keys returns exactly the specified snapshot. |
| Store.SettingsStore.constructor | src/PersonalDashboard.jsx:10-60 | The store starts with the snapshot loaded from the page's localStorage. |
| Store.SettingsStore.UpdateSetting | src/PersonalDashboard.jsx:62-80 | It throws exactly for the theme with writes rejected, and otherwise replaces exactly that key in the snapshot. The page becomes UpdatedPage of the old one. The snapshot keeps every default key. |
| Store.SettingsStore.HandleStorageChange | src/PersonalDashboard.jsx:91-114 | The snapshot becomes ExternalChange of the old one. The page and localStorage are not touched. |
| Store.SettingsStore.ApplyEach | src/PersonalDashboard.jsx:83-87 | The loop over the keys leaves the page and the throw flag that ApplyAll specifies for those keys. |
| Store.SettingsStore.ApplyAllOnMount | src/PersonalDashboard.jsx:83-87 | The page and the throw flag are those of ApplyAll over the key order. |
| LocalStorage.LsGet | src/PersonalDashboard.jsx:795-802 | A missing key or empty text gives the fallback. Non-empty text that parses gives its parse, and text that does not parse gives the fallback. |
| LocalStorage.LsSet | src/PersonalDashboard.jsx:804-806 | It throws exactly when the store rejects writes. Otherwise the key is added and every other key keeps its text. |
| LocalStorage.LsRoundTrip | src/PersonalDashboard.jsx:795-806 | What an accepted `lsSet` stores, `lsGet` reads back, whatever the fallback. |
| Todos.Add | src/PersonalDashboard.jsx:1306-1310 | Blank text leaves the list and the input box unchanged. Otherwise the list gains, at its end only, an open item with the trimmed, non-empty text, and the box is cleared. |
| Todos.Toggle | src/PersonalDashboard.jsx:1312 | Same length, ids and texts. An item's `done` flips exactly when it has the id. |
| Todos.Remove | src/PersonalDashboard.jsx:1313 | Keeps exactly the items without the id. |
| Todos.Completed | src/PersonalDashboard.jsx:1315-1316 | The completed count never exceeds the total count. |
| Todos.Flip | src/PersonalDashboard.jsx:1312 | One item of the toggle. Toggle and ToggleTwice state its effect on the list. |
| Todos.ToggleTwice | src/PersonalDashboard.jsx:1312 | Toggling the same id twice restores the list. |
| Todos.RemoveExactly | src/PersonalDashboard.jsx:1313 | Remove leaves the list unchanged exactly when no item has the id. |
| Todos.AddKeepsCompleted | src/PersonalDashboard.jsx:1306-1316 | Adding keeps the completed count, and grows the list by one exactly when the text is not blank. |
| Todos.RemoveAfterToggle | src/PersonalDashboard.jsx:1312-1313 | Removing an id after toggling it is the same as removing it directly. |
| Todos.TodosJson | src/PersonalDashboard.jsx:1304 | The persisted form is an array with one entry per item. |
| Todos.TodosOf | src/PersonalDashboard.jsx:1288 | A list read back has as many items as the stored array. |
| Todos.TodosJsonRoundTrip | src/PersonalDashboard.jsx:1288-1304 | Reading the JSON form of a list gives the list back. |
| Todos.PersistedListReloads | src/PersonalDashboard.jsx:1288-1304 | The list the panel persists with an accepted `lsSet` is the list `lsGet` loads next time. |
| Todos.DailyReset | src/PersonalDashboard.jsx:1294-1302 | If the last reset is today, nothing changes. Otherwise, with writes rejected, the effect throws and nothing changes. With writes accepted, the shown and stored lists become empty, today is recorded, and no other stored key changes. |
| Shortcuts.NormaliseUrl | src/PersonalDashboard.jsx:1460 | The URL starts with "http". It is the trimmed input when that already starts with "http", and `https://` plus the trimmed input otherwise. |
| Shortcuts.NormaliseUrlIdempotent | src/PersonalDashboard.jsx:1460 | Normalising a normalised URL leaves it unchanged. |
| Shortcuts.NewShortcut | src/PersonalDashboard.jsx:1453-1467 | Rejected exactly when the title or the URL is blank. Otherwise the title is trimmed and non-empty, the URL is normalised, and an empty icon becomes the link icon. |
| Shortcuts.Add | src/PersonalDashboard.jsx:1557-1559 | The new shortcut comes first and the old list follows unchanged. |
| Shortcuts.Remove | src/PersonalDashboard.jsx:1564 | Keeps exactly the shortcuts without the id. |
| Shortcuts.RemoveAfterAdd | src/PersonalDashboard.jsx:1557-1564 | Removing the id of a shortcut just added is removing that id from the old list, which also drops older shortcuts with the same id. When no older shortcut has it, the old list comes back unchanged. |
| Shortcuts.RemoveStampKeepsNamed | src/PersonalDashboard.jsx:1552-1564 | Removing by a numeric id keeps every shortcut whose id is a string. |
| Shortcuts.RemoveStampKeepsDefaults | src/PersonalDashboard.jsx:1552-1587 | Removing by a numeric id never removes a built-in shortcut, whose id is a string. |
| Slideshow.RotationSpeed | src/PersonalDashboard.jsx:672 | The saved speed when it is non-empty, and "5min" otherwise. |
| Slideshow.IntervalMs | src/PersonalDashboard.jsx:747-749 | The rotation interval. IntervalTable states it in both directions. |
| Slideshow.IntervalTable | src/PersonalDashboard.jsx:747-749 | "2min" gives 120000 ms and "10min" gives 600000 ms. Everything else gives 300000 ms. Each holds in both directions. |
| Slideshow.RotationSpeedFromSetting | src/PersonalDashboard.jsx:724-726 | The text `updateSetting` stores for a speed is read back by the slideshow's reader as that speed, and a blank one gives five minutes. The reader runs on mount and on another tab's `storage` event only. |
| Slideshow.ImageCountIs | src/PersonalDashboard.jsx:755 | The image count the rotation divides by is the length of the image list, 15. |
| Slideshow.NextIndex | src/PersonalDashboard.jsx:755 | The next index is in [0, 15): the following image, wrapping after the last. |
| Slideshow.Advance | src/PersonalDashboard.jsx:753-757 | The index after a number of ticks. AdvanceIs and FullCycle state where it lands. |
| Slideshow.AdvanceIs | src/PersonalDashboard.jsx:753-757 | After `t` ticks the index is the start plus `t`, modulo 15. |
| Slideshow.FullCycle | src/PersonalDashboard.jsx:753-757 | The index returns to its start after exactly 15 ticks and not before. |
| Slideshow.InitialTheme | src/PersonalDashboard.jsx:707-719 | A saved theme wins. Otherwise the theme is `themes[index % 4]`, a name of `colorThemes`. |
| Slideshow.InitialThemePeriod | src/PersonalDashboard.jsx:715-716 | With no saved theme, the starting theme repeats every four images. |
| Clock.DayPeriod | src/PersonalDashboard.jsx:855-862 | Each of the five names holds exactly on its hour range: below 5, 5-11, 12-16, 17-20, 21 and above. |
| Clock.DayPeriodEmoji | src/PersonalDashboard.jsx:864-870 | The period emoji. EmojiFollowsPeriod states that it depends only on the named period. |
| Clock.EmojiFollowsPeriod | src/PersonalDashboard.jsx:855-870 | The period emoji is a function of the named period. |
| Clock.DayPeriodMonotone | src/PersonalDashboard.jsx:855-862 | The periods follow each other in order as the hour grows. |
| Search.OnSearch | src/PersonalDashboard.jsx:1053-1080 | A blank query opens nothing and leaves the box as typed. Otherwise each of the engine's pages opens with the encoded trimmed query appended, and the box is cleared. |
| Search.Bases | src/PersonalDashboard.jsx:1056-1074 | The pages an engine choice opens, at least one. BasesHttps, AiOpensYouTwice and InitialSearch state which they are. |
| Search.BasesHttps | src/PersonalDashboard.jsx:1024-1050 | Every engine address is an https address. |
| Search.OpenedPages | src/PersonalDashboard.jsx:1053-1077 | A non-blank search opens at least one page. Every page is an https address ending in the encoded query. |
| Search.AiOpensYouTwice | src/PersonalDashboard.jsx:1064-1070 | The "ai" choice opens four pages, the second and fourth both the You.com search. |
| Search.InitialSearch | src/PersonalDashboard.jsx:1021-1075 | A search with the initial choice opens Google, then Perplexity. |
| News.FindIndex | src/PersonalDashboard.jsx:1677 | Gives the first position with the title, or -1 when no article has it. |
| News.Unique | src/PersonalDashboard.jsx:1675-1678 | The de-duplication by first title. UniqueSpec, UniqueOrder, UniqueOfDistinct and UniqueIdempotent state its meaning. |
| News.FirstsOrigin | src/PersonalDashboard.jsx:1675-1678 | Every kept article is the first article with its title. |
| News.Latest | src/PersonalDashboard.jsx:1675-1679 | At most 15 articles, a prefix of the de-duplicated list, and all of it when it is that short. |
| News.FirstsDistinct | src/PersonalDashboard.jsx:1675-1678 | The kept articles have pairwise different titles. |
| News.FirstsCover | src/PersonalDashboard.jsx:1675-1678 | The first article of every input title is kept. |
| News.UniqueSpec | src/PersonalDashboard.jsx:1675-1678 | The result has one article per title, the first one, and only articles of the input. |
| News.PositionsIncrease | src/PersonalDashboard.jsx:1675-1678 | The kept articles' positions in the input grow strictly, one position per kept article. |
| News.PositionsHold | src/PersonalDashboard.jsx:1675-1678 | The k-th kept article is the input's article at the k-th position, and that position is a first occurrence. |
| News.PositionsCover | src/PersonalDashboard.jsx:1675-1678 | Every first occurrence is among the positions. |
| News.UniqueOrder | src/PersonalDashboard.jsx:1675-1678 | The de-duplicated list is the input read at strictly increasing positions, which are exactly the first occurrences, so feed order is kept. |
| News.LatestOrder | src/PersonalDashboard.jsx:1675-1679 | The shown list has min(15, number of titles) articles: the first occurrences at the lowest positions, in feed order. |
| News.UniqueOfDistinct | src/PersonalDashboard.jsx:1675-1678 | Articles whose titles are already distinct are all kept, in order. |
| News.UniqueIdempotent | src/PersonalDashboard.jsx:1675-1678 | De-duplicating twice is de-duplicating once. |
| News.LatestDistinct | src/PersonalDashboard.jsx:1675-1679 | The articles shown have distinct titles. |

## Left out

- **React scheduling.**
  - `useState`/`useEffect` timing, dependency arrays and listener re-subscription are not modelled. Each handler is one atomic method call.
  - The listener's closure over the current snapshot is the store's field.
- **Rendering.** JSX, framer-motion, Tailwind class strings, the settings panel's controls and the progress bar percentage (floating point) are not modelled.
- **DOM restyling.**
  - `querySelectorAll` is reduced to three page fields, one inline `backdropFilter` for each group of elements: those only the blur selector matches, those only the glass selector matches, and those both match.
  - Which elements are mounted, and elements that later renders add, are not modelled.
- **Event dispatch.** `window.dispatchEvent` is a log of the dispatched events; listeners are not modelled.
- **Write failures.**
  - A single flag, `writesRejected`, stands for them: every `setItem` either succeeds or throws. That holds for the settings store, `lsSet` and the to-do reset alike.
  - The to-do panel's persist effect (src/PersonalDashboard.jsx:1304) is covered only through `LsSet`, which states when it throws.
  - Partial quotas and failing reads are not modelled.
- **JSON.**
  - Numbers are unbounded integers, and `Stringify` writes every digit. JavaScript numbers are doubles: integers above 2^53 are rounded, and from 1e21 on `JSON.stringify` writes an exponent ("1e+21").
  - Fractions and exponents do not parse, where `JSON.parse` would accept them.
  - Object keys keep their written order and duplicates.
  - A `\u` escape pair of a high and a low surrogate reads as one supplementary character, as in `JSON.parse`.
  - A lone surrogate escape is rejected, while `JSON.parse` accepts it: Dafny characters are Unicode scalar values, so a lone UTF-16 surrogate has no character here.
- **Platform functions.**
  - `encodeURIComponent` is a parameter of `Search.OnSearch`.
  - `Date.now()` ids and today's date are parameters.
  - `window.open` is the list of opened addresses.
- **Other widget code.**
  - The quick searches and the single-engine shortcut of the search bar.
  - The paging of the news list, and the news fetching, RSS parsing and placeholder images (network and `DOMParser`).
  - The clock's time-zone conversion (`Intl`).
  - Export, import, clear-all and statistics (Blob, FileReader, dialogs).
- Todos.TodosOf: reads back only the exact shape the panel writes. Lists edited by hand into other shapes are outside the model; the panel trusts such data unchecked.
