/**
 * The three enum classes that `Settings` declares, and the integer casts the
 * program applies to them. A C++ enum class is an integer underneath:
 * `static_cast<Theme>(n)` keeps any `int`, named or not, and
 * `static_cast<bool>(e)` is true exactly when the ordinal is nonzero.
 */
module Enums {

  /** `Settings::Palette { light, dark }`: light is 0 and dark is 1. */
  datatype Palette = Light | Dark

  function PaletteOrdinal(p: Palette): int {
    match p
    case Light => 0
    case Dark => 1
  }

  /**
   * `static_cast<Palette>(b)`: a bool converts to 0 or 1 first, so both
   * values land on a named palette and `true` is dark.
   */
  function PaletteOfBool(b: bool): (p: Palette)
    ensures PaletteOrdinal(p) == if b then 1 else 0
    ensures p == Dark <==> b
  {
    if b then Dark else Light
  }

  /** `static_cast<bool>(p)`, as `changePalette` tests its argument. */
  function PaletteToBool(p: Palette): (b: bool)
    ensures b <==> PaletteOrdinal(p) != 0
    ensures PaletteOfBool(b) == p
  {
    p == Dark
  }

  /**
   * `Settings::Theme { vista, classic, lightFusion, darkFusion }` with ordinals
   * 0 to 3. A cast from an integer outside that range yields an enum value
   * with no name; `Unnamed` carries that integer.
   */
  datatype Theme = Vista | Classic | LightFusion | DarkFusion | Unnamed(raw: int)
  {
    /** The values a `Theme` variable can hold: `Unnamed` only for integers no enumerator has. */
    predicate Valid() {
      Unnamed? ==> !(0 <= raw <= 3)
    }
  }

  /** `static_cast<int>(t)`: the named themes are 0 to 3, an unnamed value keeps its integer. */
  function ThemeOrdinal(t: Theme): (n: int)
    ensures t.Valid() ==> (0 <= n <= 3 <==> !t.Unnamed?)
  {
    match t
    case Vista => 0
    case Classic => 1
    case LightFusion => 2
    case DarkFusion => 3
    case Unnamed(n) => n
  }

  /** `static_cast<Theme>(n)`: every integer is kept; 0 to 3 get their enumerator's name. */
  function ThemeOfInt(n: int): (t: Theme)
    ensures t.Valid()
    ensures ThemeOrdinal(t) == n
    ensures t.Unnamed? <==> !(0 <= n <= 3)
  {
    if n == 0 then Vista
    else if n == 1 then Classic
    else if n == 2 then LightFusion
    else if n == 3 then DarkFusion
    else Unnamed(n)
  }

  /** Casting a theme to int and back gives the same theme. */
  lemma ThemeCastRoundTrip(t: Theme)
    requires t.Valid()
    ensures ThemeOfInt(ThemeOrdinal(t)) == t
  {
  }

  /** Two valid themes with the same ordinal are the same theme. */
  lemma ThemeOrdinalInjective(s: Theme, t: Theme)
    requires s.Valid() && t.Valid()
    requires ThemeOrdinal(s) == ThemeOrdinal(t)
    ensures s == t
  {
    ThemeCastRoundTrip(s);
    ThemeCastRoundTrip(t);
  }

  /** `Settings::Format { regFormat, iniFormat }`: native store is 0, INI file is 1. */
  datatype Format = RegFormat | IniFormat

  function FormatOrdinal(f: Format): int {
    match f
    case RegFormat => 0
    case IniFormat => 1
  }

  /** `static_cast<bool>(format)`, the test the `Settings` constructor makes. */
  function FormatToBool(f: Format): (b: bool)
    ensures b <==> FormatOrdinal(f) != 0
    ensures b <==> f == IniFormat
  {
    f == IniFormat
  }
}
