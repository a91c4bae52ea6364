/** The named palettes and background pairs (lib/constants.ts). */
module Constants {
  import opened Types

  /** `PaletteKey = keyof typeof colorPalettes`. */
  datatype PaletteKey = Sunset | Ocean | Forest | Cosmic | Fire | Monochrome

  /** The key under which each palette is stored in the table. */
  function KeyName(k: PaletteKey): string {
    match k
    case Sunset => "sunset"
    case Ocean => "ocean"
    case Forest => "forest"
    case Cosmic => "cosmic"
    case Fire => "fire"
    case Monochrome => "monochrome"
  }

  /** The table's keys in declaration order (what `Object.keys` yields). */
  const PaletteKeyNames: seq<string> :=
    ["sunset", "ocean", "forest", "cosmic", "fire", "monochrome"]

  /** Looks a string up among the palette keys. */
  function ParseKey(s: string): (r: Option<PaletteKey>)
    ensures r.Some? ==> KeyName(r.value) == s
    ensures r.None? ==> s !in PaletteKeyNames
  {
    if s == "sunset" then Some(Sunset)
    else if s == "ocean" then Some(Ocean)
    else if s == "forest" then Some(Forest)
    else if s == "cosmic" then Some(Cosmic)
    else if s == "fire" then Some(Fire)
    else if s == "monochrome" then Some(Monochrome)
    else None
  }

  function Palette(k: PaletteKey): seq<string> {
    match k
    case Sunset => ["#FF6B6B", "#4ECDC4", "#45B7D1", "#96CEB4", "#FFEAA7"]
    case Ocean => ["#0077BE", "#00A8CC", "#7FB3D3", "#C5E4FD", "#E8F4FD"]
    case Forest => ["#2D5016", "#61892F", "#86C232", "#C6E377", "#E8F5E8"]
    case Cosmic => ["#2C1810", "#5D4E75", "#B19CD9", "#C9A9DD", "#E6E6FA"]
    case Fire => ["#8B0000", "#DC143C", "#FF4500", "#FF6347", "#FFA07A"]
    case Monochrome => ["#000000", "#404040", "#808080", "#C0C0C0", "#FFFFFF"]
  }

  /** `colorPalettes[key]`: the palette stored under a string, if any. */
  function PaletteNamed(key: string): (r: Option<seq<string>>)
    ensures r.Some? <==> key in PaletteKeyNames
    ensures r.Some? ==> |r.value| == 5
  {
    match ParseKey(key)
    case Some(k) => Some(Palette(k))
    case None => None
  }

  /** `Array.isArray(sel) ? sel : colorPalettes[sel]`. */
  function ResolvePalette(sel: PaletteSel): (r: Option<seq<string>>)
    ensures sel.Literal? ==> r == Some(sel.colors)
    ensures sel.Named? ==> (r.Some? <==> sel.key in PaletteKeyNames)
    ensures sel.Named? && r.Some? ==> |r.value| == 5
    ensures sel.Undefined? ==> r.None?
  {
    match sel
    case Literal(cs) => Some(cs)
    case Named(k) => PaletteNamed(k)
    case Undefined => None
  }

  datatype Background = Background(primary: string, secondary: string)

  /** The keys of `backgroundColors` in declaration order. */
  const BackgroundKeyNames: seq<string> :=
    ["dark", "light", "sunset", "ocean", "forest", "cosmic", "fire", "custom"]

  const Dark := Background("#1a1a2e", "#16213e")

  function BackgroundColors(): map<string, Background> {
    map[
      "dark" := Dark,
      "light" := Background("#f8f9fa", "#e9ecef"),
      "sunset" := Background("#2c1810", "#4a1c1c"),
      "ocean" := Background("#0a1929", "#1e3a8a"),
      "forest" := Background("#1a2e1a", "#2d5016"),
      "cosmic" := Background("#1a1a2e", "#2c1810"),
      "fire" := Background("#2c1810", "#4a1c1c"),
      "custom" := Background("#1a1a2e", "#16213e")
    ]
  }

  predicate IsHexDigit(c: char) {
    '0' <= c <= '9' || 'a' <= c <= 'f' || 'A' <= c <= 'F'
  }

  /** A CSS colour of the form `#RRGGBB`. */
  predicate IsHexColor(s: string) {
    |s| == 7 && s[0] == '#' && IsHexDigit(s[1]) && IsHexDigit(s[2]) && IsHexDigit(s[3])
    && IsHexDigit(s[4]) && IsHexDigit(s[5]) && IsHexDigit(s[6])
  }

  /** Every palette holds five `#RRGGBB` colours. */
  lemma PalettesWellFormed(k: PaletteKey)
    ensures |Palette(k)| == 5
    ensures forall i :: 0 <= i < 5 ==> IsHexColor(Palette(k)[i])
  {
    if k == Sunset || k == Ocean || k == Forest {
      WarmPalettesWellFormed(k);
    } else {
      DarkPalettesWellFormed(k);
    }
  }

  lemma WarmPalettesWellFormed(k: PaletteKey)
    requires k == Sunset || k == Ocean || k == Forest
    ensures |Palette(k)| == 5 && forall i :: 0 <= i < 5 ==> IsHexColor(Palette(k)[i])
  {
  }

  lemma DarkPalettesWellFormed(k: PaletteKey)
    requires k == Cosmic || k == Fire || k == Monochrome
    ensures |Palette(k)| == 5 && forall i :: 0 <= i < 5 ==> IsHexColor(Palette(k)[i])
  {
  }

  /** Every background colour is a `#RRGGBB` colour. */
  lemma BackgroundsWellFormed(key: string)
    requires key in BackgroundColors()
    ensures IsHexColor(BackgroundColors()[key].primary) && IsHexColor(BackgroundColors()[key].secondary)
  {
    if key in ["dark", "light", "sunset", "ocean"] {
      FirstBackgroundsWellFormed(key);
    } else {
      LastBackgroundsWellFormed(key);
    }
  }

  lemma FirstBackgroundsWellFormed(key: string)
    requires key in ["dark", "light", "sunset", "ocean"]
    ensures key in BackgroundColors()
    ensures IsHexColor(BackgroundColors()[key].primary) && IsHexColor(BackgroundColors()[key].secondary)
  {
  }

  lemma LastBackgroundsWellFormed(key: string)
    requires key in BackgroundColors() && key !in ["dark", "light", "sunset", "ocean"]
    ensures IsHexColor(BackgroundColors()[key].primary) && IsHexColor(BackgroundColors()[key].secondary)
  {
  }

  /** The table's keys are the eight names, `dark` among them; the stock `custom` pair is the `dark` pair. */
  lemma BackgroundKeys()
    ensures forall k :: k in BackgroundColors() <==> k in BackgroundKeyNames
    ensures "dark" in BackgroundColors() && BackgroundColors()["dark"] == Dark
    ensures BackgroundColors()["custom"] == BackgroundColors()["dark"]
  {
  }

  /** PaletteKey is exactly the six table keys, each named once. */
  lemma PaletteKeysExact()
    ensures forall k: PaletteKey :: ParseKey(KeyName(k)) == Some(k)
    ensures forall s :: s in PaletteKeyNames <==> ParseKey(s).Some?
    ensures |PaletteKeyNames| == 6
    ensures forall i, j :: 0 <= i < j < 6 ==> PaletteKeyNames[i] != PaletteKeyNames[j]
  {
  }
}
