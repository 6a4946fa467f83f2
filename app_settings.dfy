/**
 * `Settings`: a process-wide singleton that owns the settings store, applies
 * a visual theme (a style name and a light or dark palette) to the
 * application, and forwards auto-palette requests to its `AutoPalette`
 * watcher. The application object (`qApp`) is reduced to its style name,
 * its palette and the tooltip palette.
 */
module AppSettings {
  import opened Wrappers
  import opened Enums
  import opened Store
  import P = Palettes
  import W = Watcher

  /**
   * The store the `Settings` constructor opens: an INI file called `name`
   * when the format casts to true, otherwise the native store of
   * organisation `name` for the running application.
   */
  function BackendFor(format: Format, name: string, applicationName: string): (b: Backend)
    ensures b.IniFile? <==> FormatToBool(format)
    ensures b.IniFile? ==> b.fileName == name
    ensures b.NativeStore? ==> b.organization == name && b.application == applicationName
  {
    if FormatToBool(format) then IniFile(name) else NativeStore(name, applicationName)
  }

  /** A style to install and the palette to apply with it. */
  datatype StyleChoice = StyleChoice(styleName: string, palette: Palette)

  /**
   * The `setStyle` switch: every named theme picks a style and a palette, and
   * an unnamed theme value picks nothing.
   */
  function StyleFor(t: Theme): (c: Option<StyleChoice>)
    ensures c.None? <==> t.Unnamed?
    ensures c.Some? ==> (c.value.palette == Dark <==> t == DarkFusion)
    ensures c.Some? ==> (c.value.styleName == "Fusion" <==> t == LightFusion || t == DarkFusion)
    ensures t == Vista ==> c.value.styleName == "windowsvista"
    ensures t == Classic ==> c.value.styleName == "windows"
  {
    match t
    case Vista => Some(StyleChoice("windowsvista", Light))
    case Classic => Some(StyleChoice("windows", Light))
    case LightFusion => Some(StyleChoice("Fusion", Light))
    case DarkFusion => Some(StyleChoice("Fusion", Dark))
    case Unnamed(_) => None
  }

  const StyleGroup := "Style"
  const ThemeKey := "Theme"

  /** The path of Style/Theme inside the groups `outer`. */
  lemma ThemePath(outer: seq<string>)
    ensures KeyPath(outer + [StyleGroup], ThemeKey) == GroupPrefix(outer) + [StyleGroup, ThemeKey]
  {
    var style, theme := StyleGroup, ThemeKey;
    assert '/' !in style && '/' !in theme;
    SingleSection(style);
    SingleSection(theme);
    assert (outer + [StyleGroup])[..|outer|] == outer;
  }

  /**
   * The theme `loadStyle` finds when the open groups make the path `prefix`:
   * the int stored under Style/Theme cast to `Theme`, or `lightFusion` when
   * nothing is stored there.
   */
  function StoredTheme(entries: map<Path, Variant>, prefix: Path): (t: Theme)
    ensures t.Valid()
    ensures prefix + [StyleGroup, ThemeKey] !in entries ==> t == LightFusion
    ensures prefix + [StyleGroup, ThemeKey] in entries
            ==> ThemeOrdinal(t) == ToInt(entries[prefix + [StyleGroup, ThemeKey]])
  {
    ThemeOfInt(ToInt(Lookup(entries, prefix + [StyleGroup, ThemeKey], IntValue(ThemeOrdinal(LightFusion)))))
  }

  /**
   * A theme saved under Style/Theme, as an int or as its text, is the theme
   * `loadStyle` reads back.
   */
  lemma StoredThemeRoundTrip(entries: map<Path, Variant>, prefix: Path, t: Theme, asText: bool)
    requires t.Valid()
    requires -0x8000_0000 <= ThemeOrdinal(t) < 0x8000_0000
    ensures StoredTheme(entries[prefix + [StyleGroup, ThemeKey] :=
                          if asText then TextValue(FormatInteger(ThemeOrdinal(t))) else IntValue(ThemeOrdinal(t))],
                        prefix) == t
  {
    if asText {
      TextRoundTrip(ThemeOrdinal(t));
    }
    ThemeCastRoundTrip(t);
  }

  /**
   * `writeSettings("", "Style/Theme", n)` stores the theme where `loadStyle`
   * reads it: an empty group adds nothing and the '/' in the key opens the
   * Style group.
   */
  lemma SlashedThemeKey(outer: seq<string>)
    ensures KeyPath(outer + [""], StyleGroup + "/" + ThemeKey) == GroupPrefix(outer) + [StyleGroup, ThemeKey]
  {
    EmptyGroupAddsNothing(outer, StyleGroup + "/" + ThemeKey);
    SlashOpensGroup(outer, StyleGroup, ThemeKey);
    ThemePath(outer);
  }

  /**
   * Text under Style/Theme is narrowed to `int` before the cast to `Theme`:
   * "4294967298" loads as lightFusion.
   */
  lemma WideStoredThemeWraps(entries: map<Path, Variant>, prefix: Path, n: int)
    requires InInt64(n)
    ensures StoredTheme(entries[prefix + [StyleGroup, ThemeKey] := TextValue(FormatInteger(n))], prefix)
            == ThemeOfInt(Wrap32(n))
    ensures n == 0x1_0000_0002 ==>
              StoredTheme(entries[prefix + [StyleGroup, ThemeKey] := TextValue(FormatInteger(n))], prefix)
              == LightFusion
  {
    WideTextWraps(n);
  }

  /** The `Settings` instance: the settings store it owns. */
  class Settings {
    const store: SettingsStore

    /** `Settings(format, name)`: opens the store that `BackendFor` names, finding `persisted` in it. */
    constructor (format: Format, name: string, applicationName: string, persisted: map<Path, Variant>)
      ensures fresh(store)
      ensures store.backend == BackendFor(format, name, applicationName)
      ensures store.entries == persisted && store.groups == []
    {
      store := new SettingsStore(BackendFor(format, name, applicationName), persisted);
    }
  }

  /**
   * The static members of `Settings` together with the application state
   * they drive. `paletteBuffer` is the function-static `QPalette` inside
   * `changePalette`: `None` until the first call constructs it.
   */
  class Process {
    var instance: Settings?
    var autoPaletteWatcher: W.AutoPalette?
    var autoPaletteEnabled: bool
    /** Connections from the watcher's `notifyPalette` to `bool2PaletteHelper`. */
    var notifyConnections: nat
    /** Connections from `autoPaletteSignal` to the watcher's `isLightEventLoop`. */
    var signalConnections: nat
    var style: string
    var palette: P.Colors
    var toolTipPalette: P.Colors
    var paletteBuffer: Option<P.Colors>
    /** The standard palette of each style, as the toolkit defines it. */
    const standardPalette: string -> P.Colors

    /** Either nothing is set up, or the instance, its watcher and one connection each way are. */
    ghost predicate Valid()
      reads this
    {
      (instance == null <==> autoPaletteWatcher == null) &&
      notifyConnections == signalConnections == (if instance == null then 0 else 1)
    }

    /** The static initialisation: no instance, no watcher, auto palette off. */
    constructor (style: string, palette: P.Colors, toolTipPalette: P.Colors, standardPalette: string -> P.Colors)
      ensures Valid() && instance == null && !autoPaletteEnabled && paletteBuffer.None?
      ensures this.style == style && this.palette == palette && this.toolTipPalette == toolTipPalette
      ensures this.standardPalette == standardPalette
    {
      instance := null;
      autoPaletteWatcher := null;
      autoPaletteEnabled := false;
      notifyConnections, signalConnections := 0, 0;
      this.style := style;
      this.palette := palette;
      this.toolTipPalette := toolTipPalette;
      paletteBuffer := None;
      this.standardPalette := standardPalette;
    }

    /**
     * `init(format, name)`: the first call creates the instance and its
     * watcher and connects them both ways; any later call changes nothing.
     * `indeterminate` is the uninitialised first value of the watcher's flag.
     */
    method Init(format: Format, name: string, applicationName: string,
                persisted: map<Path, Variant>, indeterminate: bool)
      requires Valid()
      modifies this
      ensures Valid() && instance != null
      ensures old(instance) != null ==> unchanged(this)
      ensures old(instance) == null ==>
                fresh(instance) && fresh(instance.store) && fresh(autoPaletteWatcher) &&
                instance.store.backend == BackendFor(format, name, applicationName) &&
                instance.store.entries == persisted && instance.store.groups == [] &&
                autoPaletteWatcher.thread == W.NoThread
      ensures autoPaletteEnabled == old(autoPaletteEnabled) && style == old(style)
      ensures palette == old(palette) && toolTipPalette == old(toolTipPalette)
      ensures paletteBuffer == old(paletteBuffer)
    {
      if instance == null {
        instance := new Settings(format, name, applicationName, persisted);
        autoPaletteWatcher := new W.AutoPalette(indeterminate);
        notifyConnections := notifyConnections + 1;
        signalConnections := signalConnections + 1;
      }
    }

    /**
     * `loadStyle()`: the theme stored under Style/Theme, `lightFusion` by
     * default. The entries stay as they were and the group opened for the
     * read is closed again.
     */
    method LoadStyle() returns (t: Theme)
      requires Valid() && instance != null
      modifies instance.store
      ensures t == StoredTheme(old(instance.store.entries), GroupPrefix(old(instance.store.groups)))
      ensures instance.store.entries == old(instance.store.entries)
      ensures instance.store.groups == old(instance.store.groups)
    {
      ghost var outer := instance.store.groups;
      instance.store.BeginGroup(StyleGroup);
      var v := instance.store.Value(ThemeKey, IntValue(ThemeOrdinal(LightFusion)));
      instance.store.EndGroup();
      assert (outer + [StyleGroup])[..|outer|] == outer;
      ThemePath(outer);
      t := ThemeOfInt(ToInt(v));
    }

    /**
     * `readSettings(group, key)`: the value stored under the open groups,
     * the group and the key, or an invalid variant; nesting restored.
     */
    method ReadSettings(group: string, key: string) returns (v: Variant)
      requires Valid() && instance != null
      modifies instance.store
      ensures key == [] ==> v == Invalid
      ensures key != [] ==>
                v == Lookup(old(instance.store.entries), KeyPath(old(instance.store.groups) + [group], key), Invalid)
      ensures instance.store.entries == old(instance.store.entries)
      ensures instance.store.groups == old(instance.store.groups)
    {
      ghost var outer := instance.store.groups;
      instance.store.BeginGroup(group);
      v := instance.store.Value(key, Invalid);
      instance.store.EndGroup();
      assert (outer + [group])[..|outer|] == outer;
    }

    /** `writeSettings(group, key, value)`: only that entry changes (none for an empty key); nesting restored. */
    method WriteSettings(group: string, key: string, value: Variant)
      requires Valid() && instance != null
      modifies instance.store
      ensures key == [] ==> instance.store.entries == old(instance.store.entries)
      ensures key != [] ==>
                instance.store.entries
                == old(instance.store.entries)[KeyPath(old(instance.store.groups) + [group], key) := value]
      ensures instance.store.groups == old(instance.store.groups)
    {
      ghost var outer := instance.store.groups;
      instance.store.BeginGroup(group);
      instance.store.SetValue(key, value);
      instance.store.EndGroup();
      assert (outer + [group])[..|outer|] == outer;
    }

    /** The palette `changePalette` starts from: its static, or on the first call a copy of the application's. */
    function BufferOrApplicationPalette(): P.Colors
      reads this
    {
      paletteBuffer.GetOr(palette)
    }

    /**
     * What `changePalette(p)` leaves behind: the static palette, the
     * application and the tooltips all hold one palette; for light it is the
     * current style's standard palette, for dark it is `before` with the dark
     * table laid over it.
     */
    ghost predicate Shows(p: Palette, before: P.Colors)
      reads this
    {
      paletteBuffer == Some(palette) && toolTipPalette == palette &&
      (p == Light ==> palette == standardPalette(style)) &&
      (p == Dark ==> P.IsDarkened(before, palette))
    }

    /** `changePalette(p)`. */
    method ChangePalette(p: Palette)
      modifies this`palette, this`toolTipPalette, this`paletteBuffer
      ensures Shows(p, old(BufferOrApplicationPalette()))
    {
      var buffer := BufferOrApplicationPalette();
      if PaletteToBool(p) {
        buffer := P.Darken(buffer);
      } else {
        buffer := standardPalette(style);
      }
      paletteBuffer := Some(buffer);
      toolTipPalette := buffer;
      palette := buffer;
    }

    /** `bool2PaletteHelper(b)`: a notified `true` applies the dark palette, `false` the light one. */
    method Bool2PaletteHelper(b: bool)
      modifies this`palette, this`toolTipPalette, this`paletteBuffer
      ensures Shows(if b then Dark else Light, old(BufferOrApplicationPalette()))
    {
      ChangePalette(PaletteOfBool(b));
    }

    /**
     * `setStyle(t)`: a named theme installs its style and then applies its
     * palette; an unnamed theme value changes nothing.
     */
    method SetStyle(t: Theme)
      modifies this`style, this`palette, this`toolTipPalette, this`paletteBuffer
      ensures t.Unnamed? ==> unchanged(this)
      ensures StyleFor(t).Some? ==>
                style == StyleFor(t).value.styleName &&
                Shows(StyleFor(t).value.palette, old(BufferOrApplicationPalette()))
    {
      match StyleFor(t) {
        case None =>
        case Some(choice) =>
          style := choice.styleName;
          ChangePalette(choice.palette);
      }
    }

    /**
     * `setAutoPalette(b)`: records `b` and emits `autoPaletteSignal(b)`,
     * whose one connection runs the watcher's `isLightEventLoop(b)` at once.
     */
    method SetAutoPalette(b: bool)
      requires Valid() && instance != null
      modifies this`autoPaletteEnabled, autoPaletteWatcher
      ensures autoPaletteEnabled == b
      ensures autoPaletteWatcher.autoPaletteFlag == old(autoPaletteWatcher.autoPaletteFlag)
      ensures autoPaletteWatcher.thread.Thread?
      ensures old(autoPaletteWatcher.thread).NoThread? ==>
                autoPaletteWatcher.thread.commands == [W.CommandFor(b)]
      ensures old(autoPaletteWatcher.thread).Thread? ==>
                autoPaletteWatcher.thread.commands == old(autoPaletteWatcher.thread).commands + [W.Quit, W.CommandFor(b)]
    {
      autoPaletteEnabled := b;
      autoPaletteWatcher.IsLightEventLoop(b);
    }

    /**
     * The watcher's notifications reaching `bool2PaletteHelper` in the order
     * they were emitted: the last one decides what the application shows.
     * After a final `false` that is the style's standard palette; after a
     * final `true` it is the dark table laid over the standard palette when
     * any notification was `false`, and over the starting palette otherwise.
     */
    method DeliverNotifications(emitted: seq<bool>)
      modifies this`palette, this`toolTipPalette, this`paletteBuffer
      ensures emitted == [] ==> unchanged(this)
      ensures emitted != [] ==> paletteBuffer == Some(palette) && toolTipPalette == palette
      ensures emitted != [] && !emitted[|emitted| - 1] ==> palette == standardPalette(style)
      ensures emitted != [] && emitted[|emitted| - 1] ==>
                P.IsDarkened(if false in emitted then standardPalette(style) else old(BufferOrApplicationPalette()), palette)
    {
      ghost var start := BufferOrApplicationPalette();
      var i := 0;
      while i < |emitted|
        invariant 0 <= i <= |emitted|
        invariant i == 0 ==> unchanged(this)
        invariant i > 0 ==> paletteBuffer == Some(palette) && toolTipPalette == palette
        invariant i > 0 && !emitted[i - 1] ==> palette == standardPalette(style)
        invariant i > 0 && emitted[i - 1] ==>
                    P.IsDarkened(if false in emitted[..i] then standardPalette(style) else start, palette)
      {
        ghost var previous := palette;
        ghost var base := if false in emitted[..i] then standardPalette(style) else start;
        Bool2PaletteHelper(emitted[i]);
        assert emitted[..i + 1] == emitted[..i] + [emitted[i]];
        if i > 0 && emitted[i - 1] && emitted[i] {
          P.DarkenIdempotent(base, previous, palette);
        }
        i := i + 1;
      }
      assert emitted[..i] == emitted;
    }

    /**
     * The started watcher thread over a run of wake-ups, with every
     * notification delivered through the connection `init` made: the
     * application ends up showing its style's standard palette when the
     * latest reading is light, and the dark table when it is dark.
     */
    method RunWatcher(initial: W.RegistryRead, wakeups: seq<W.Wakeup>)
      requires Valid() && instance != null
      modifies this`palette, this`toolTipPalette, this`paletteBuffer
      ensures paletteBuffer == Some(palette) && toolTipPalette == palette
      ensures W.FinalReading(initial, wakeups) ==> palette == standardPalette(style)
      ensures !W.FinalReading(initial, wakeups) ==>
                P.IsDarkened(if false in W.WatchEmissions(initial, wakeups) then standardPalette(style)
                             else old(BufferOrApplicationPalette()), palette)
    {
      var emitted := W.WatchThemeChanges(initial, wakeups);
      W.WatchEmissionsShape(initial, wakeups);
      DeliverNotifications(emitted);
    }
  }

  /**
   * `writeSettings` followed by `readSettings` on the same group and key:
   * the read returns what was written (an empty key is refused and reads as
   * an invalid variant), every other entry reads as before, and the group
   * nesting is as it was.
   */
  method WriteThenRead(process: Process, group: string, key: string, value: Variant) returns (v: Variant)
    requires process.Valid() && process.instance != null
    modifies process.instance.store
    ensures key != [] ==> v == value
    ensures key == [] ==> v == Invalid && process.instance.store.entries == old(process.instance.store.entries)
    ensures forall path :: path != KeyPath(old(process.instance.store.groups) + [group], key) ==>
              Lookup(process.instance.store.entries, path, Invalid)
              == Lookup(old(process.instance.store.entries), path, Invalid)
    ensures process.instance.store.groups == old(process.instance.store.groups)
  {
    process.WriteSettings(group, key, value);
    v := process.ReadSettings(group, key);
  }
}
