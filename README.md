# QtSettingsandTheme — a Dafny model of `Settings` and `AutoPalette`

`Settings` is a process-wide singleton for a Qt application on Windows. It has
four jobs:

- It owns a `QSettings` store, either the native one or an INI file.
- It loads and saves values under a group and a key, bracketing every access
  with `beginGroup`/`endGroup`. Among those values is the saved theme
  (`Style/Theme`).
- It applies a theme: a Qt style name together with a light or a dark palette.
  The dark palette is a fixed table of RGB colours. The light palette is the
  style's standard palette.
- It can follow the system's "apps use light theme" setting. Its `AutoPalette`
  helper runs a thread that reads that registry value, waits for it to change,
  and emits `notifyPalette(!isLight)` on every transition. Those signals reach
  `bool2PaletteHelper`, which switches the palette.

This project models that logic with Qt and Win32 abstracted away:

| file | module | contents |
|---|---|---|
| `enums.dfy` | `Enums` | The `Palette`, `Theme` and `Format` enum classes, with the integer and bool casts the program applies to them. A cast from an int outside 0..3 gives an unnamed `Theme` value. |
| `store.dfy` | `Store` | `QVariant` values and `QVariant::toInt`. The `SettingsStore` class is a `QSettings` reduced to two parts: a map from key path to value, and the stack of open groups. A key path is the '/'-separated sections of the group names and the key, with empty sections dropped. |
| `palettes.dfy` | `Palettes` | A `QPalette` as a 3 × 21 table (colour group × colour role). Covers `setColor` in both its forms and the dark branch of `changePalette` as a straight line of `setColor` calls. The dark table is an independent reference definition. |
| `watcher.dfy` | `Watcher` | `readIsLight` and `isLightEvent`, reduced to their outcomes. The watcher thread's loop is a method over a finite run of wake-ups, proved against a reference definition of its emissions and its laws. The `AutoPalette` class holds the thread handle and the flag. |
| `app_settings.dfy` | `AppSettings` | The `Settings` instance. The `Process` class holds the static members of `Settings` together with the application state they drive: style, palette, tooltip palette and the function-static palette inside `changePalette`. |
| `wrappers.dfy` | `Wrappers` | `Option`. |

## Model

| member | source | states |
|---|---|---|
| Enums.PaletteOfBool | settings.cpp:150 | Casting a bool to `Palette` gives ordinal 1 for true and 0 for false, so the result is dark exactly when the bool is true. |
| Enums.PaletteToBool | settings.cpp:107 | The palette tests true exactly when its ordinal is nonzero. It is the inverse of `PaletteOfBool`. |
| Enums.ThemeOfInt | settings.cpp:47 | Casting an int to `Theme` keeps the int as the ordinal. The result names an enumerator exactly when the int is in 0..3; otherwise it is an unnamed value. |
| Enums.ThemeOrdinal | settings.cpp:44 | `static_cast<int>` of a theme: the named themes have ordinals 0 to 3, and an unnamed value keeps an integer outside that range. |
| Enums.ThemeCastRoundTrip | settings.hpp:38 | Casting a theme to int and back gives the same theme. |
| Enums.ThemeOrdinalInjective | settings.hpp:38 | Two themes with the same ordinal are equal, so the enum order vista=0, classic=1, lightFusion=2, darkFusion=3 is a bijection. |
| Enums.FormatToBool | settings.cpp:96 | A format casts to true exactly when its ordinal is nonzero, which is exactly `iniFormat`. |
| Store.ToInt | settings.cpp:43-45 | `toInt` returns an int unchanged and a bool as 1 or 0. An invalid variant gives 0, and so does text that is not a decimal integer or is beyond the range of `long long`. Decimal text in the range of `int` converts to its value. Any other text integer keeps its low 32 bits. |
| Store.Wrap32 | settings.cpp:43-45 | The narrowing from `long long` to `int` keeps every value in the range of `int`. Otherwise it changes the value by a multiple of 2^32. |
| Store.WideTextWraps | settings.cpp:43-45 | The text of any `long long` reads back as its low 32 bits, so "4294967298" reads back as 2. |
| Store.ParseNegative | settings.cpp:43-45 | A minus sign before decimal digits parses as the negated value of the digits. |
| Store.ParseFormatted | settings.cpp:43-45 | Parsing the decimal text of any integer gives back that integer. |
| Store.TextRoundTrip | settings.cpp:43-45 | An int stored as text converts back through `toInt` to the same int. |
| Store.Sections | settings.cpp:42-44 | A group name or key splits at every '/' into non-empty sections without '/'. |
| Store.SingleSection | settings.cpp:42-44 | A non-empty name without '/' is a single section. |
| Store.SectionsJoin | settings.cpp:42-44 | Joining two names with '/' joins their sections. |
| Store.PlainKeyPath | settings.cpp:42-44 | With non-empty group names and key that contain no '/', the key path is the groups followed by the key. |
| Store.EmptyGroupAddsNothing | settings.cpp:83-84 | A group with an empty name adds nothing to the path of a key inside it. |
| Store.SlashOpensGroup | settings.cpp:83-84 | A key `a/b` reaches the same entry as key `b` inside group `a`. |
| Store.Lookup | settings.cpp:84 | A lookup returns the stored value when the path is present, and the default when it is absent. |
| Store.SettingsStore.constructor | settings.cpp:97-98 | A new store has its back end, the entries it finds already persisted, and no open group. |
| Store.SettingsStore.BeginGroup | settings.cpp:42 | The group is pushed onto the open groups. |
| Store.SettingsStore.EndGroup | settings.cpp:46 | The innermost group is popped. With no group open, nothing changes. |
| Store.SettingsStore.Value | settings.cpp:43-44 | Returns the value at the key's path under the open groups, or the default when nothing is stored there. An empty key reads as an invalid variant, whatever the default. |
| Store.SettingsStore.SetValue | settings.hpp:57 | The entry at the key's path under the open groups becomes the value, and no other entry changes. An empty key changes nothing. |
| Palettes.SetColor | settings.cpp:108-120 | The role takes the colour in all three colour groups. Every other role keeps its colour. |
| Palettes.SetGroupColor | settings.cpp:121-131 | The role takes the colour in the one colour group named. Every other group and role keeps its colour. |
| Palettes.DarkenEveryGroup | settings.cpp:108-120 | The thirteen `setColor` calls give each listed role its dark colour in every colour group. Every other role keeps its colour. |
| Palettes.DarkenDisabled | settings.cpp:121-131 | The seven disabled `setColor` calls give each listed role its grey in the disabled group. The active and inactive groups are untouched. |
| Palettes.DarkColorInTwoBlocks | settings.cpp:107-131 | The second block applied over the first gives exactly the dark table. |
| Palettes.Darken | settings.cpp:107-131 | The whole dark branch lays the dark table over the starting palette. Disabled overrides win, and roles outside the table keep their colours. |
| Palettes.DarkenIdempotent | settings.cpp:106-131 | Applying the dark branch to a palette it already produced gives that same palette. |
| Watcher.IsLight | settings.cpp:224 | `static_cast<bool>` of the DWORD that `readIsLight` returns: light exactly when it is nonzero. |
| Watcher.ReadIsLight | settings.cpp:168-186 | A successful read returns the DWORD found. A failed open or query returns -1 as a DWORD (0xFFFFFFFF), so the result tests light exactly when the read failed or found a nonzero value. |
| Watcher.IsLightEvent | settings.cpp:188-215 | A failure to open the key, create the event, register for notification or wait leaves the value as it was. A completed wait replaces it with a fresh reading. |
| Watcher.Readings | settings.cpp:227-229 | The loop yields exactly one reading per wake-up. |
| Watcher.EmissionsShape | settings.cpp:224-231 | The first emission is `!start`, the last is the negation of the latest reading, and consecutive emissions always differ. |
| Watcher.EmissionCount | settings.cpp:224-231 | The number of emissions is 1 plus the number of transitions between consecutive readings. |
| Watcher.EmissionsAreCollapsedReadings | settings.cpp:224-231 | The emissions are the start value followed by the readings, with runs of equal neighbours reduced to one element and every element negated. |
| Watcher.FailedWakeupsKeepReading | settings.cpp:199 | Wake-ups that all fail leave every reading equal to the start value. |
| Watcher.SteadyReadingsNoChanges | settings.cpp:230 | Readings that never leave the start value count no transition. |
| Watcher.FailedWakeupsEmitNothing | settings.cpp:197-209 | When every wake-up fails, the only emission is the initial `!isLight`. |
| Watcher.WatchEmissionsShape | settings.cpp:224-231 | For a whole run: the count is 1 plus the transitions, the first emission is `!initial`, the last is `!` of the final reading, and the emissions alternate. |
| Watcher.WatchThemeChanges | settings.cpp:223-231 | The `temp`/`islight` loop emits exactly the reference emissions `WatchEmissions`, whose laws `WatchEmissionsShape` and `EmissionsAreCollapsedReadings` state. |
| Watcher.LoopStep | settings.cpp:228-230 | One pass of the loop extends the readings by the `isLightEvent` result. It adds `!islight` to the emissions exactly when the reading changed. |
| Watcher.LightThenSpuriousThenDark | settings.cpp:224-231 | Start light, get a notification with the value unchanged, then go dark: the emissions are exactly light then dark. |
| Watcher.AutoPalette.constructor | settings.cpp:163-166 | `mThread` starts null. The flag holds whatever uninitialised value it was given. |
| Watcher.AutoPalette.GetAutoPalette | settings.cpp:153-156 | `autoPalette()` returns the watcher's own flag. |
| Watcher.AutoPalette.SetAutoPalette | settings.cpp:158-161 | After `setAutoPalette(b)`, `autoPalette()` returns b. The thread is untouched. |
| Watcher.CommandFor | settings.cpp:234 | The request made to the thread is start exactly when the event is true, and quit otherwise. |
| Watcher.AutoPalette.IsLightEventLoop | settings.cpp:217-234 | The first call creates the thread. A later call asks the existing thread to quit and never replaces it. The thread is then started when the event is true and asked to quit otherwise. |
| AppSettings.BackendFor | settings.cpp:95-99 | The store is an INI file named `name` exactly when the format casts to true. Otherwise it is the native store of organisation `name` for the application. |
| AppSettings.StyleFor | settings.cpp:54-75 | darkFusion alone chooses the dark palette. lightFusion and darkFusion choose "Fusion", vista chooses "windowsvista" and classic chooses "windows". An unnamed theme value chooses nothing. |
| AppSettings.ThemePath | settings.cpp:42-44 | Key "Theme" inside group "Style" has the path of the open groups followed by Style and Theme. |
| AppSettings.StoredTheme | settings.cpp:40-48 | With no entry under Style/Theme the theme is lightFusion. Otherwise it is the stored value's `toInt` cast to `Theme`. |
| AppSettings.StoredThemeRoundTrip | settings.cpp:40-48 | A theme saved under Style/Theme, as an int or as its text, reads back as the same theme. |
| AppSettings.SlashedThemeKey | settings.hpp:56-57 | `writeSettings("", "Style/Theme", v)` writes the entry that `loadStyle` reads. |
| AppSettings.WideStoredThemeWraps | settings.cpp:43-47 | Text under Style/Theme is narrowed to `int` before the cast to `Theme`, so "4294967298" loads as lightFusion. |
| AppSettings.Settings.constructor | settings.cpp:95-99 | The instance opens a fresh store on the back end `BackendFor` names, with no open group. |
| AppSettings.Process.constructor | settings.cpp:22-24 | Before `init` there is no instance, no watcher and no connection, and the auto palette is off. |
| AppSettings.Process.Init | settings.cpp:27-34 | The first call creates the instance and the watcher and makes one connection each way. Any later call changes nothing. |
| AppSettings.Process.LoadStyle | settings.cpp:40-48 | Returns `StoredTheme` of the entries, at the path of the groups open before the call. The entries and the group nesting are as they were. |
| AppSettings.Process.ReadSettings | settings.cpp:81-87 | Returns the value at the key's path under the open groups and the group. That is an invalid variant when nothing is stored there or the key is empty. The entries and the nesting are unchanged. |
| AppSettings.Process.WriteSettings | settings.hpp:53-59 | Exactly the entry at the key's path is set; with an empty key nothing changes. The group nesting is restored. |
| AppSettings.WriteThenRead | settings.hpp:53-59 | A read after a write of the same group and non-empty key returns the value written. An empty key reads back as an invalid variant and changes nothing. Every other path reads as before, and the nesting is restored. |
| AppSettings.Process.ChangePalette | settings.cpp:105-136 | The static palette, the application and the tooltips end up holding one palette. For light it is the current style's standard palette. For dark it is the dark table laid over the previous static palette; on the first call that is a copy of the application's palette. |
| AppSettings.Process.Bool2PaletteHelper | settings.cpp:148-151 | true applies the dark palette and false applies the light one. |
| AppSettings.Process.SetStyle | settings.cpp:54-75 | A named theme installs the style `StyleFor` chooses, then applies its palette. An unnamed theme value changes nothing. |
| AppSettings.Process.SetAutoPalette | settings.cpp:89-93 | The flag becomes b, and the watcher's `isLightEventLoop(b)` runs once through its one connection. |
| AppSettings.Process.DeliverNotifications | settings.cpp:31 | Notifications reach `bool2PaletteHelper` in order, and the last one decides what is shown. After any notification, the buffer, the application and tooltips hold the same palette. After a final false it is the style's standard palette. After a final true it is the dark table laid over the standard palette when any notification was false, and over the palette the run started from when none was. No notification changes nothing. |
| AppSettings.Process.RunWatcher | settings.cpp:223-231 | After a run of the watcher, the application and tooltips show the style's standard palette when the final reading is light, When the final reading is dark, the palette is the dark table laid over the standard palette if the watcher ever emitted false, and over the starting palette otherwise. The buffer always holds the palette shown. |

## Left out

- QSettings persistence: the back end, its on-disk or registry layout and when it syncs are not modelled. A store is a map that starts from given contents. A value keeps its variant type here; a real back end may hand it back as text (a bool written to the registry is stored as text, and `toInt` of that text is 0).
- Store.ToInt: models decimal text with an optional sign. It leaves out the surrounding-whitespace trimming and the other numeric variant types of `QVariant::toInt`, which the program never stores.
- Store.SettingsStore.Value: keys are compared case-sensitively. Both Windows back ends ignore case, so in the program two keys that differ only in case name one entry; in the model they name two. A key made only of '/' characters is read at the path of its groups. Qt instead asserts in a debug build and uses the group prefix with a trailing '/' in a release build.
- Store.SettingsStore.SetValue: keys are compared case-sensitively, for the same reason as `Value`. A key made only of '/' characters is placed at the path of its groups. Qt instead asserts in a debug build and uses the group prefix with a trailing '/' in a release build.
- AppSettings.WriteThenRead: "every other path reads as before" holds for paths as the model compares them, case-sensitively. In the program a write also changes what keys differing only in case read.
- AppSettings.Process.LoadStyle, AppSettings.Process.ReadSettings, AppSettings.Process.WriteSettings, AppSettings.Process.SetAutoPalette: in the program, a call before `init` dereferences a null instance pointer. The model requires `init` to have run first and says nothing about that call.
- Win32 registry and event calls (`RegOpenKeyEx`, `RegQueryValueEx`, `RegNotifyChangeKeyValue`, `CreateEvent`, `WaitForSingleObject`): these are operating-system I/O. They are replaced by their outcomes, the `RegistryRead` and `Wakeup` values.
- The handles that `isLightEvent` leaks on its early returns: resource lifetime, not observable state of the model.
- Watcher.WatchThemeChanges: the source's loop runs for as long as `event` is true. The model runs it over any finite run of wake-ups, and the laws hold for every prefix.
- `QThread` start and quit, and cross-thread queued delivery of `notifyPalette`: concurrency. The thread is a log of start and quit requests. AppSettings.Process.DeliverNotifications delivers notifications one after another, in emission order.
- The lambda captures `event` by reference past the lifetime of the parameter. That is undefined behaviour, so the model reads the loop condition as "still enabled".
- `QStyleFactory::create`, and rendering through `qApp->setStyle`, `qApp->setPalette` and `QToolTip::setPalette`: UI toolkit behaviour. Only the style name and the palette values are kept. Each style's standard palette is a parameter (`standardPalette`). Any palette change that `setStyle` itself makes in Qt is not modelled.
- The `Settings` destructor, which deletes `m_instance` from inside itself: memory management, not statable behaviour.
- Colour roles are plain indices 0..20, and colours are RGB without alpha.
