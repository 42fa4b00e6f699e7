/** `draw_color_palette`: one swatch per colour, stacked downwards from an
    anchor.  Entry i of the list is drawn as a filled 20x20 square at
    (x, y + 25*i) in that colour and a white label "<name> #rrggbb" 30 pixels
    to its right; an entry that is None or does not hold three values is
    skipped but still takes up its slot.  The drawing calls are recorded on a
    Canvas rather than rasterised. */
module Palette {
  import opened Imaging
  import opened HexFormat
  import opened ColorNaming

  /** An element of the `colors` list: None, or a tuple of ints of some length. */
  datatype Entry = NoColor | Values(vals: seq<int>)

  /** The entry passes the `color is None or len(color) != 3` test. */
  predicate Drawable(e: Entry) {
    e.Values? && |e.vals| == 3
  }

  /** The tuple `(r, g, b)` as `get_top_colors` hands it over. */
  function EntryOf(c: Rgb): Entry {
    Values([c.r, c.g, c.b])
  }

  function Entries(colors: seq<Rgb>): (es: seq<Entry>)
    ensures |es| == |colors| && forall i :: 0 <= i < |es| ==> Drawable(es[i])
    ensures forall i :: 0 <= i < |es| ==> es[i] == Values([colors[i].r, colors[i].g, colors[i].b])
  {
    seq(|colors|, i requires 0 <= i < |colors| => EntryOf(colors[i]))
  }

  /** `f"{name} {hex_code}"`, with "Unknown" when naming raised. */
  function Label(name: Option<string>, c: Rgb): string {
    (match name case Some(n) => n case None => "Unknown") + " " + HexCode(c.r, c.g, c.b)
  }

  /** The two calls drawn for entry i (none for a malformed entry). */
  function SwatchOps(e: Entry, i: nat, x: int, y: int, exact: Rgb -> Option<string>,
                     table: seq<NamedColor>): seq<DrawCmd>
  {
    if !Drawable(e) then []
    else
      var c := Rgb(e.vals[0], e.vals[1], e.vals[2]);
      var top := y + i * 25;
      [Rectangle(x, top, x + 20, top + 20, Bgr(c.b, c.g, c.r), -1),
       PutText(Label(ColorName(exact, table, c), c), x + 30, top + 15, 0.5, WhiteInk, 1)]
  }

  /** The calls `draw_color_palette(frame, colors, x, y)` makes, in order. */
  function PaletteOps(colors: seq<Entry>, x: int, y: int, exact: Rgb -> Option<string>,
                      table: seq<NamedColor>): seq<DrawCmd>
    decreases |colors|
  {
    if colors == [] then []
    else PaletteOps(colors[..|colors| - 1], x, y, exact, table)
         + SwatchOps(colors[|colors| - 1], |colors| - 1, x, y, exact, table)
  }

  function CountDrawable(colors: seq<Entry>): nat
    decreases |colors|
  {
    if colors == [] then 0
    else CountDrawable(colors[..|colors| - 1]) + (if Drawable(colors[|colors| - 1]) then 1 else 0)
  }

  /** Two calls per well-formed entry and none for the others. */
  lemma {:induction false} PaletteLength(colors: seq<Entry>, x: int, y: int,
                                         exact: Rgb -> Option<string>, table: seq<NamedColor>)
    ensures |PaletteOps(colors, x, y, exact, table)| == 2 * CountDrawable(colors)
    decreases |colors|
  {
    if colors != [] {
      PaletteLength(colors[..|colors| - 1], x, y, exact, table);
    }
  }

  /** The calls for a prefix of the list come first. */
  lemma {:induction false} PalettePrefix(colors: seq<Entry>, m: nat, x: int, y: int,
                                         exact: Rgb -> Option<string>, table: seq<NamedColor>)
    requires m <= |colors|
    ensures PaletteOps(colors[..m], x, y, exact, table) <= PaletteOps(colors, x, y, exact, table)
    decreases |colors|
  {
    if m < |colors| {
      var front := colors[..|colors| - 1];
      PalettePrefix(front, m, x, y, exact, table);
      assert front[..m] == colors[..m];
    } else {
      assert colors[..m] == colors;
    }
  }

  /** A well-formed entry i is drawn at its own slot y + 25*i, whatever entries
      before it were skipped: its square and label are the calls at position
      2 * (well-formed entries before i). */
  lemma PaletteSwatchAt(colors: seq<Entry>, i: nat, x: int, y: int,
                        exact: Rgb -> Option<string>, table: seq<NamedColor>)
    requires i < |colors| && Drawable(colors[i])
    ensures var ops := PaletteOps(colors, x, y, exact, table);
            var k := 2 * CountDrawable(colors[..i]);
            var c := Rgb(colors[i].vals[0], colors[i].vals[1], colors[i].vals[2]);
            var top := y + i * 25;
            && k + 1 < |ops|
            && ops[k] == Rectangle(x, top, x + 20, top + 20, Bgr(c.b, c.g, c.r), -1)
            && ops[k + 1] == PutText(Label(ColorName(exact, table, c), c), x + 30, top + 15, 0.5, WhiteInk, 1)
  {
    var upto := colors[..i + 1];
    assert upto[..i] == colors[..i] && upto[i] == colors[i];
    var before := PaletteOps(colors[..i], x, y, exact, table);
    var mine := SwatchOps(colors[i], i, x, y, exact, table);
    assert PaletteOps(upto, x, y, exact, table) == before + mine;
    PalettePrefix(colors, i + 1, x, y, exact, table);
    PaletteLength(colors[..i], x, y, exact, table);
    assert |mine| == 2;
  }

  /** A None or wrongly sized entry adds no call. */
  lemma PaletteSkipsMalformed(colors: seq<Entry>, i: nat, x: int, y: int,
                              exact: Rgb -> Option<string>, table: seq<NamedColor>)
    requires i < |colors| && !Drawable(colors[i])
    ensures PaletteOps(colors[..i + 1], x, y, exact, table) == PaletteOps(colors[..i], x, y, exact, table)
  {
    assert colors[..i + 1][..i] == colors[..i];
  }

  /** The label of an in-range colour is the colour's name ("Unknown" when
      naming raised), a space and its `#rrggbb` code, which reads back as the
      colour. */
  lemma LabelIsNameAndHexCode(name: Option<string>, c: Rgb)
    requires InRange(c)
    ensures var l := Label(name, c);
            && |l| >= 8 && l[|l| - 8] == ' '
            && l[|l| - 7..] == HexCode(c.r, c.g, c.b)
            && ParseHexCode(l[|l| - 7..]) == Channels(c.r, c.g, c.b)
            && l[..|l| - 8] == (if name.Some? then name.value else "Unknown")
  {
    HexCodeRoundTrip(c.r, c.g, c.b);
    var l := Label(name, c);
    var n := match name case Some(s) => s case None => "Unknown";
    assert l == (n + " ") + HexCode(c.r, c.g, c.b);
  }

  /** `draw_color_palette(frame, colors, x, y)`. */
  method DrawColorPalette(canvas: Canvas, colors: seq<Entry>, x: int, y: int,
                          exact: Rgb -> Option<string>, table: seq<NamedColor>)
    modifies canvas
    ensures canvas.ops == old(canvas.ops) + PaletteOps(colors, x, y, exact, table)
  {
    for i := 0 to |colors|
      invariant canvas.ops == old(canvas.ops) + PaletteOps(colors[..i], x, y, exact, table)
    {
      assert colors[..i + 1][..i] == colors[..i];
      var color := colors[i];
      if color.NoColor? || |color.vals| != 3 {
        continue;
      }
      DrawSwatch(canvas, color, i, x, y, exact, table);
    }
    assert colors[..|colors|] == colors;
  }

  /** The body of the palette loop for a well-formed entry i: the square and its label. */
  method DrawSwatch(canvas: Canvas, color: Entry, i: nat, x: int, y: int,
                    exact: Rgb -> Option<string>, table: seq<NamedColor>)
    requires Drawable(color)
    modifies canvas
    ensures canvas.ops == old(canvas.ops) + SwatchOps(color, i, x, y, exact, table)
  {
    var r, g, b := color.vals[0], color.vals[1], color.vals[2];
    var hex := HexCode(r, g, b);
    var name := RgbToName(exact, table, Rgb(r, g, b));
    var shown := if name.Some? then name.value else "Unknown";
    var top := y + i * 25;
    canvas.DrawRectangle(x, top, x + 20, top + 20, Bgr(b, g, r), -1);
    canvas.DrawText(shown + " " + hex, x + 30, top + 15, 0.5, WhiteInk, 1);
  }
}
