/** Colour schemes by name, the palette a chart draws from them, and d3's ordinal
    scale over that palette. */
module ColorSchemes {
  import opened Util

  /** A named scheme; `getColors(n)` is the list of colours it offers for `n` series. */
  datatype ColorScheme = ColorScheme(getColors: nat -> seq<Color>)

  /** The `ColorSchemes` registry, looked up by scheme name. */
  type Registry = map<string, ColorScheme>

  /** The scheme both stacked charts fall back to. */
  const StackedAreaDefault: string := "stackedAreaDefault"

  /** The palette after `if (invertColorScheme) baseColors.reverse()`. */
  function Palette(scheme: ColorScheme, seriesCount: nat, invert: bool): seq<Color> {
    if invert then Reversed(scheme.getColors(seriesCount)) else scheme.getColors(seriesCount)
  }

  /** `const baseColors = scheme.getColors(seriesCount); if (invert) baseColors.reverse()`:
      the list `getColors` returns is put in an array that is then reversed in place. */
  method BuildPalette(scheme: ColorScheme, seriesCount: nat, invert: bool) returns (colors: seq<Color>)
    ensures colors == Palette(scheme, seriesCount, invert)
    ensures |colors| == |scheme.getColors(seriesCount)|
  {
    var base := scheme.getColors(seriesCount);
    var baseColors := new Color[|base|](i requires 0 <= i < |base| => base[i]);
    assert baseColors[..] == base;
    if invert {
      ReverseInPlace(baseColors);
    }
    colors := baseColors[..];
  }

  /** Inverting the scheme reverses the palette end to end and keeps its size: the
      colour in slot `k` becomes the one that was in slot `n - 1 - k`. */
  lemma {:induction false} InvertedPaletteMirrors(scheme: ColorScheme, seriesCount: nat)
    ensures Palette(scheme, seriesCount, true) == Reversed(Palette(scheme, seriesCount, false))
    ensures Reversed(Palette(scheme, seriesCount, true)) == Palette(scheme, seriesCount, false)
    ensures |Palette(scheme, seriesCount, true)| == |Palette(scheme, seriesCount, false)|
  {
    ReversedTwice(scheme.getColors(seriesCount));
  }

  /** `scaleOrdinal(palette)(name)`. d3 hands out palette slots in the order names
      are first asked for, cycling; that order is given here by `slot`. An empty
      palette yields `undefined`. */
  function OrdinalColor(palette: seq<Color>, slot: string -> nat, name: string): (c: Option<Color>)
    ensures c.None? <==> palette == []
    ensures c.Some? ==> c.value in palette
  {
    if palette == [] then None else Some(palette[slot(name) % |palette|])
  }
}
