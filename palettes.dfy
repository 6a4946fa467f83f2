/**
 * A `QPalette` reduced to its colours: one colour for every colour group and
 * colour role, kept (as Qt keeps it) in a table indexed by the two enums'
 * values; and the fixed dark colour table of `changePalette`.
 */
module Palettes {
  import opened Wrappers

  type Byte = n: int | 0 <= n < 256

  datatype Rgb = Rgb(red: Byte, green: Byte, blue: Byte)

  /** `Qt::white`, `Qt::red` and `Qt::black`. */
  const White := Rgb(255, 255, 255)
  const Red := Rgb(255, 0, 0)
  const Black := Rgb(0, 0, 0)

  /** `QPalette::ColorGroup`, a plain enum: Active, Disabled, Inactive. */
  type ColorGroup = g: nat | g < 3
  const Active: ColorGroup := 0
  const Disabled: ColorGroup := 1
  const Inactive: ColorGroup := 2

  /** `QPalette::ColorRole`, a plain enum of 21 roles; those the program sets are named. */
  type ColorRole = r: nat | r < 21
  const WindowText: ColorRole := 0
  const Button: ColorRole := 1
  const Text: ColorRole := 6
  const BrightText: ColorRole := 7
  const ButtonText: ColorRole := 8
  const Base: ColorRole := 9
  const Window: ColorRole := 10
  const Highlight: ColorRole := 12
  const HighlightedText: ColorRole := 13
  const Link: ColorRole := 14
  const AlternateBase: ColorRole := 16
  const ToolTipBase: ColorRole := 18
  const ToolTipText: ColorRole := 19

  /** A palette: a row of 21 role colours for each of the 3 colour groups. */
  type Colors = p: seq<seq<Rgb>> | |p| == 3 && forall g :: 0 <= g < 3 ==> |p[g]| == 21
    witness seq(3, _ => seq(21, _ => Black))

  /** `setColor(role, c)`: the role takes colour `c` in every colour group. */
  function SetColor(p: Colors, role: ColorRole, c: Rgb): (q: Colors)
    ensures forall g: ColorGroup :: q[g][role] == c
    ensures forall g: ColorGroup, r: ColorRole :: r != role ==> q[g][r] == p[g][r]
  {
    [p[0][role := c], p[1][role := c], p[2][role := c]]
  }

  /** `setColor(g, role, c)`: the role takes colour `c` in colour group `g` only. */
  function SetGroupColor(p: Colors, g: ColorGroup, role: ColorRole, c: Rgb): (q: Colors)
    ensures q[g][role] == c
    ensures forall h: ColorGroup, r: ColorRole :: (h != g || r != role) ==> q[h][r] == p[h][r]
  {
    p[g := p[g][role := c]]
  }

  /**
   * The dark theme, colour by colour: what each colour group and role shows
   * after the dark branch of `changePalette`, or `None` for the roles that
   * branch leaves alone. Disabled text-like roles are grey (164, 166, 168)
   * and disabled surfaces a darker grey (68, 68, 68).
   */
  function DarkColor(g: ColorGroup, r: ColorRole): Option<Rgb> {
    var disabled := g == Disabled;
    if r == Window then Some(if disabled then Rgb(68, 68, 68) else Rgb(53, 53, 53))
    else if r == WindowText then Some(if disabled then Rgb(164, 166, 168) else White)
    else if r == Base then Some(if disabled then Rgb(68, 68, 68) else Rgb(25, 25, 25))
    else if r == AlternateBase then Some(Rgb(53, 53, 53))
    else if r == ToolTipBase then Some(Rgb(53, 53, 53))
    else if r == ToolTipText then Some(White)
    else if r == Text then Some(if disabled then Rgb(164, 166, 168) else White)
    else if r == Button then Some(Rgb(53, 53, 53))
    else if r == ButtonText then Some(if disabled then Rgb(164, 166, 168) else White)
    else if r == BrightText then Some(Red)
    else if r == Link then Some(Rgb(42, 130, 218))
    else if r == Highlight then Some(if disabled then Rgb(68, 68, 68) else Rgb(42, 130, 218))
    else if r == HighlightedText then Some(if disabled then Rgb(164, 166, 168) else Black)
    else None
  }

  /** `q` is `p` with the dark table laid over it. */
  ghost predicate IsDarkened(p: Colors, q: Colors) {
    forall g: ColorGroup, r: ColorRole :: q[g][r] == DarkColor(g, r).GetOr(p[g][r])
  }

  /** Every colour the dark table fixes shows its dark value in `p`. */
  ghost predicate ShowsDarkTable(p: Colors) {
    forall g: ColorGroup, r: ColorRole :: DarkColor(g, r).Some? ==> p[g][r] == DarkColor(g, r).value
  }

  /** Applying the dark branch to a palette it already produced changes nothing. */
  lemma DarkenIdempotent(p: Colors, q: Colors, q': Colors)
    requires IsDarkened(p, q) && IsDarkened(q, q')
    ensures q' == q
  {
    forall g: ColorGroup
      ensures q'[g] == q[g]
    {
      forall r: ColorRole
        ensures q'[g][r] == q[g][r]
      {
        assert q'[g][r] == DarkColor(g, r).GetOr(q[g][r]);
        assert q[g][r] == DarkColor(g, r).GetOr(p[g][r]);
      }
    }
    assert forall g :: 0 <= g < |q| ==> q'[g] == q[g];
  }

  /** The colour the first block of the dark branch gives a role in every colour group. */
  function EveryGroupDarkColor(r: ColorRole): Option<Rgb> {
    if r == Window || r == AlternateBase || r == ToolTipBase || r == Button then Some(Rgb(53, 53, 53))
    else if r == WindowText || r == ToolTipText || r == Text || r == ButtonText then Some(White)
    else if r == Base then Some(Rgb(25, 25, 25))
    else if r == BrightText then Some(Red)
    else if r == Link || r == Highlight then Some(Rgb(42, 130, 218))
    else if r == HighlightedText then Some(Black)
    else None
  }

  /** The colour the second block of the dark branch gives a role in the disabled group. */
  function DisabledDarkColor(r: ColorRole): Option<Rgb> {
    if r == Text || r == WindowText || r == ButtonText || r == HighlightedText then Some(Rgb(164, 166, 168))
    else if r == Base || r == Window || r == Highlight then Some(Rgb(68, 68, 68))
    else None
  }

  /** The two blocks, one after the other, give the dark table. */
  lemma DarkColorInTwoBlocks(g: ColorGroup, r: ColorRole, c: Rgb)
    ensures DarkColor(g, r).GetOr(c)
         == if g == Disabled then DisabledDarkColor(r).GetOr(EveryGroupDarkColor(r).GetOr(c))
            else EveryGroupDarkColor(r).GetOr(c)
  {
  }

  /** The first block of the dark branch: thirteen roles set in every colour group. */
  method DarkenEveryGroup(p: Colors) returns (q: Colors)
    ensures forall g: ColorGroup, r: ColorRole :: q[g][r] == EveryGroupDarkColor(r).GetOr(p[g][r])
  {
    q := p;
    q := SetColor(q, Window, Rgb(53, 53, 53));
    q := SetColor(q, WindowText, White);
    q := SetColor(q, Base, Rgb(25, 25, 25));
    q := SetColor(q, AlternateBase, Rgb(53, 53, 53));
    q := SetColor(q, ToolTipBase, Rgb(53, 53, 53));
    q := SetColor(q, ToolTipText, White);
    q := SetColor(q, Text, White);
    q := SetColor(q, Button, Rgb(53, 53, 53));
    q := SetColor(q, ButtonText, White);
    q := SetColor(q, BrightText, Red);
    q := SetColor(q, Link, Rgb(42, 130, 218));
    q := SetColor(q, Highlight, Rgb(42, 130, 218));
    q := SetColor(q, HighlightedText, Black);
  }

  /** The second block of the dark branch: seven colours set in the disabled group only. */
  method DarkenDisabled(p: Colors) returns (q: Colors)
    ensures forall r: ColorRole :: q[Disabled][r] == DisabledDarkColor(r).GetOr(p[Disabled][r])
    ensures forall g: ColorGroup, r: ColorRole :: g != Disabled ==> q[g][r] == p[g][r]
  {
    q := p;
    q := SetGroupColor(q, Disabled, Text, Rgb(164, 166, 168));
    q := SetGroupColor(q, Disabled, WindowText, Rgb(164, 166, 168));
    q := SetGroupColor(q, Disabled, ButtonText, Rgb(164, 166, 168));
    q := SetGroupColor(q, Disabled, HighlightedText, Rgb(164, 166, 168));
    q := SetGroupColor(q, Disabled, Base, Rgb(68, 68, 68));
    q := SetGroupColor(q, Disabled, Window, Rgb(68, 68, 68));
    q := SetGroupColor(q, Disabled, Highlight, Rgb(68, 68, 68));
  }

  /**
   * The dark branch of `changePalette`: the first block, then the disabled
   * colours set over it. The result is the dark table laid over `p`.
   */
  method Darken(p: Colors) returns (q: Colors)
    ensures forall g: ColorGroup, r: ColorRole :: q[g][r] == DarkColor(g, r).GetOr(p[g][r])
  {
    var every := DarkenEveryGroup(p);
    q := DarkenDisabled(every);
    forall g: ColorGroup, r: ColorRole
      ensures q[g][r] == DarkColor(g, r).GetOr(p[g][r])
    {
      assert every[g][r] == EveryGroupDarkColor(r).GetOr(p[g][r]);
      DarkColorInTwoBlocks(g, r, p[g][r]);
    }
  }
}
