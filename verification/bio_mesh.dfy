/** The ASCII digitiser: the camera frame is shrunk to one pixel per glyph
    cell, mirrored, and every cell bright enough is drawn as a glyph from a
    ten-step ramp, coloured by the palette. */
module BioMesh {
  import opened Types

  datatype Density = Low | Med | High

  datatype ColorMode = Matrix | Cyan | White | Rgb

  /** The glyph ramp, darkest first. */
  const Ramp: string := " .:-=+*#%@"

  // ---------------------------------------------------------------------------
  // Grid sizing.
  // ---------------------------------------------------------------------------

  /** The unrounded glyph size: 10 px on narrow canvases and 14 px otherwise,
      scaled by 1.5 for low density and 0.6 for high density. */
  function BaseSize(w: nat, density: Density): real
  {
    var base := if w < 768 then 10.0 else 14.0;
    match density
    case Low => base * 1.5
    case Med => base
    case High => base * 0.6
  }

  /** The glyph size in pixels: the base size rounded down, never below 4. */
  function FontSize(w: nat, density: Density): (fs: nat)
    ensures fs >= 4
    ensures fs == BaseSize(w, density).Floor || (fs == 4 && BaseSize(w, density).Floor < 4)
  {
    var f := BaseSize(w, density).Floor;
    if f > 4 then f else 4
  }

  /** Denser settings never use larger glyphs. */
  lemma DensityOrder(w: nat)
    ensures FontSize(w, High) <= FontSize(w, Med) <= FontSize(w, Low)
    ensures FontSize(w, High) == (if w < 768 then 6 else 8)
    ensures FontSize(w, Med) == (if w < 768 then 10 else 14)
    ensures FontSize(w, Low) == (if w < 768 then 15 else 21)
  {
    if w < 768 {
      assert BaseSize(w, High) == 6.0 && BaseSize(w, Low) == 15.0;
    } else {
      assert BaseSize(w, High) == 8.4 && BaseSize(w, Low) == 21.0;
      assert 8.0 <= 8.4 < 9.0;
    }
  }

  /** Math.ceil(a / b) for a non-negative a and a positive b: the least count
      of b-wide cells that covers a. */
  function CeilDiv(a: nat, b: nat): (c: nat)
    requires b > 0
    ensures a <= c * b < a + b
  {
    var q := (a + b - 1) / b;
    var r := (a + b - 1) % b;
    assert q * b + r == a + b - 1 && 0 <= r < b;
    q
  }

  /** The glyph grid for a w × h canvas: glyph size, columns and rows. */
  datatype Layout = Layout(fontSize: nat, cols: nat, rows: nat)

  function GridLayout(w: nat, h: nat, density: Density): (l: Layout)
    ensures l.fontSize >= 4
    ensures w <= l.cols * l.fontSize < w + l.fontSize
    ensures h <= l.rows * l.fontSize < h + l.fontSize
  {
    var fs := FontSize(w, density);
    Layout(fs, CeilDiv(w, fs), CeilDiv(h, fs))
  }

  // ---------------------------------------------------------------------------
  // Reading the pixel buffer.
  // ---------------------------------------------------------------------------

  lemma CellBelowCount(x: nat, y: nat, cols: nat, rows: nat)
    requires x < cols && y < rows
    ensures y * cols + x < rows * cols
  {
    assert (y + 1) * cols == y * cols + cols;
    MulLe(y + 1, rows, cols);
  }

  /** The offset of the red channel of cell (x, y) in a row-major RGBA buffer;
      green and blue follow it, and all three lie inside a cols × rows buffer. */
  function PixelIndex(x: nat, y: nat, cols: nat, rows: nat): (i: nat)
    requires x < cols && y < rows
    ensures i + 3 < cols * rows * 4
  {
    CellBelowCount(x, y, cols, rows);
    (y * cols + x) * 4
  }

  /** The source column a grid column reads: the shrunk frame is drawn
      mirrored, flipped about the vertical axis. */
  function MirrorColumn(x: nat, cols: nat): (m: nat)
    requires x < cols
    ensures m < cols && x == cols - 1 - m
  {
    cols - 1 - x
  }

  /** The mean of the three colour channels. */
  function Brightness(r: Byte, g: Byte, b: Byte): (br: real)
    ensures 0.0 <= br <= 255.0
  {
    (r as int + g as int + b as int) as real / 3.0
  }

  /** The ramp position for a brightness: floor(brightness / 255 × 9). */
  function GlyphIndex(br: real): (k: int)
    requires 0.0 <= br <= 255.0
    ensures 0 <= k < |Ramp|
  {
    (br / 255.0 * 9.0).Floor
  }

  /** A brighter cell never gets a darker glyph. */
  lemma GlyphMonotone(br1: real, br2: real)
    requires 0.0 <= br1 <= br2 <= 255.0
    ensures GlyphIndex(br1) <= GlyphIndex(br2)
  {
    assert br1 / 255.0 * 9.0 <= br2 / 255.0 * 9.0;
  }

  /** '@' appears only at full brightness, and the blank glyph exactly below
      one ninth of it. */
  lemma GlyphExtremes(br: real)
    requires 0.0 <= br <= 255.0
    ensures GlyphIndex(br) == 9 <==> br == 255.0
    ensures GlyphIndex(br) == 0 <==> br < 255.0 / 9.0
  {
  }

  /** The fill colour of a drawn cell, as RGB channels and an alpha. */
  datatype Colour = Colour(r: int, g: int, b: int, alpha: real)

  /** The fill colour of a cell: its own colour in true-colour mode, otherwise
      the palette's tint with alpha brightness / 255. */
  function CellColour(mode: ColorMode, r: Byte, g: Byte, b: Byte): (c: Colour)
    ensures mode == Rgb ==> c == Colour(r as int, g as int, b as int, 1.0)
    ensures mode != Rgb ==> c.alpha == Brightness(r, g, b) / 255.0
    ensures mode != Rgb && Brightness(r, g, b) > 20.0 ==> 20.0 / 255.0 < c.alpha <= 1.0
  {
    var alpha := Brightness(r, g, b) / 255.0;
    match mode
    case Rgb => Colour(r as int, g as int, b as int, 1.0)
    case Matrix => Colour(0, 255, 100, alpha)
    case Cyan => Colour(0, 255, 255, alpha)
    case White => Colour(255, 255, 255, alpha)
  }

  /** One fillText call: the glyph, its fill and the centre of its cell. */
  datatype Draw = Draw(glyph: char, colour: Colour, cx: real, cy: real)

  /** The silhouette threshold. */
  const Threshold: real := 20.0

  /** The draw for grid cell (x, y) of a cols × rows frame, if any: the cell
      reads the mirrored column, and it is drawn exactly when its brightness
      exceeds the threshold. */
  function CellDraw(frame: seq<Byte>, cols: nat, rows: nat, fs: nat, mode: ColorMode, x: nat, y: nat)
    : (d: Option<Draw>)
    requires |frame| == cols * rows * 4 && x < cols && y < rows
    ensures d.Some? && mode != Rgb ==> 20.0 / 255.0 < d.value.colour.alpha <= 1.0
  {
    var i := PixelIndex(MirrorColumn(x, cols), y, cols, rows);
    var br := Brightness(frame[i], frame[i + 1], frame[i + 2]);
    if br > Threshold then
      Some(Draw(Ramp[GlyphIndex(br)], CellColour(mode, frame[i], frame[i + 1], frame[i + 2]),
                (x * fs) as real + fs as real / 2.0, (y * fs) as real + fs as real / 2.0))
    else None
  }

  /** Cell (x, y) shows the glyph of the mirrored pixel's brightness in the
      palette's colour, and is drawn exactly when that brightness exceeds the
      threshold. */
  lemma CellDrawMeaning(frame: seq<Byte>, cols: nat, rows: nat, fs: nat, mode: ColorMode, x: nat, y: nat)
    requires |frame| == cols * rows * 4 && x < cols && y < rows
    ensures var d := CellDraw(frame, cols, rows, fs, mode, x, y);
      var i := PixelIndex(cols - 1 - x, y, cols, rows);
      var br := Brightness(frame[i], frame[i + 1], frame[i + 2]);
      && (d.Some? <==> br > Threshold)
      && (d.Some? ==> d.value.glyph == Ramp[GlyphIndex(br)]
                      && d.value.colour == CellColour(mode, frame[i], frame[i + 1], frame[i + 2]))
  {
  }

  function DrawList(d: Option<Draw>): seq<Draw>
  {
    if d.Some? then [d.value] else []
  }

  /** The draws of the first n cells of row y, left to right. */
  function RowDraws(frame: seq<Byte>, cols: nat, rows: nat, fs: nat, mode: ColorMode, y: nat, n: nat)
    : seq<Draw>
    requires |frame| == cols * rows * 4 && y < rows && n <= cols
  {
    if n == 0 then []
    else RowDraws(frame, cols, rows, fs, mode, y, n - 1) + DrawList(CellDraw(frame, cols, rows, fs, mode, n - 1, y))
  }

  /** The draws of the first m rows, top to bottom. */
  function GridDraws(frame: seq<Byte>, cols: nat, rows: nat, fs: nat, mode: ColorMode, m: nat)
    : seq<Draw>
    requires |frame| == cols * rows * 4 && m <= rows
  {
    if m == 0 then []
    else GridDraws(frame, cols, rows, fs, mode, m - 1) + RowDraws(frame, cols, rows, fs, mode, m - 1, cols)
  }

  /** The draw pass: rows top to bottom. */
  method Digitise(frame: seq<Byte>, cols: nat, rows: nat, fs: nat, mode: ColorMode) returns (draws: seq<Draw>)
    requires |frame| == cols * rows * 4
    ensures draws == GridDraws(frame, cols, rows, fs, mode, rows)
  {
    draws := [];
    var y := 0;
    while y < rows
      invariant 0 <= y <= rows
      invariant draws == GridDraws(frame, cols, rows, fs, mode, y)
    {
      var row := DigitiseRow(frame, cols, rows, fs, mode, y);
      draws := draws + row;
      y := y + 1;
    }
  }

  /** One row of the draw pass, left to right. */
  method DigitiseRow(frame: seq<Byte>, cols: nat, rows: nat, fs: nat, mode: ColorMode, y: nat)
    returns (row: seq<Draw>)
    requires |frame| == cols * rows * 4 && y < rows
    ensures row == RowDraws(frame, cols, rows, fs, mode, y, cols)
  {
    row := [];
    var x := 0;
    while x < cols
      invariant 0 <= x <= cols
      invariant row == RowDraws(frame, cols, rows, fs, mode, y, x)
    {
      var cell := CellDraw(frame, cols, rows, fs, mode, x, y);
      if cell.Some? {
        row := row + [cell.value];
      }
      x := x + 1;
    }
  }

  // ---------------------------------------------------------------------------
  // What a frame's draws satisfy.
  // ---------------------------------------------------------------------------

  /** A draw as a bright cell of a frame with glyph size fs produces it: a ramp
      glyph centred inside the cols·fs × rows·fs grid area, with an alpha above
      the threshold's unless the palette is true colour. */
  predicate Legible(d: Draw, cols: nat, rows: nat, fs: nat, mode: ColorMode)
  {
    && d.glyph in Ramp
    && 0.0 < d.cx < (cols * fs) as real
    && 0.0 < d.cy < (rows * fs) as real
    && (mode != Rgb ==> 20.0 / 255.0 < d.colour.alpha <= 1.0)
  }

  lemma MulLe(a: nat, b: nat, c: nat)
    requires a <= b
    ensures a * c <= b * c
  {
  }

  lemma CentreInside(x: nat, cols: nat, fs: nat)
    requires x < cols && fs > 0
    ensures 0.0 < (x * fs) as real + fs as real / 2.0 < (cols * fs) as real
  {
    MulLe(x + 1, cols, fs);
    var a, c := x * fs, cols * fs;
    assert (x + 1) * fs == a + fs;
    assert a + fs <= c;
  }

  lemma CellLegible(frame: seq<Byte>, cols: nat, rows: nat, fs: nat, mode: ColorMode, x: nat, y: nat)
    requires |frame| == cols * rows * 4 && x < cols && y < rows && fs > 0
    requires CellDraw(frame, cols, rows, fs, mode, x, y).Some?
    ensures Legible(CellDraw(frame, cols, rows, fs, mode, x, y).value, cols, rows, fs, mode)
  {
    CentreInside(x, cols, fs);
    CentreInside(y, rows, fs);
  }

  /** Every draw of ds is legible. */
  ghost predicate AllLegible(ds: seq<Draw>, cols: nat, rows: nat, fs: nat, mode: ColorMode)
  {
    forall k :: 0 <= k < |ds| ==> Legible(ds[k], cols, rows, fs, mode)
  }

  lemma AllLegibleConcat(a: seq<Draw>, b: seq<Draw>, cols: nat, rows: nat, fs: nat, mode: ColorMode)
    requires AllLegible(a, cols, rows, fs, mode) && AllLegible(b, cols, rows, fs, mode)
    ensures AllLegible(a + b, cols, rows, fs, mode)
  {
    var ab := a + b;
    forall k | 0 <= k < |ab|
      ensures Legible(ab[k], cols, rows, fs, mode)
    {
      if k < |a| {
        assert ab[k] == a[k];
      } else {
        assert ab[k] == b[k - |a|];
      }
    }
  }

  /** The first n cells of a row yield at most n draws. */
  lemma {:induction false} RowCount(frame: seq<Byte>, cols: nat, rows: nat, fs: nat, mode: ColorMode,
                                    y: nat, n: nat)
    requires |frame| == cols * rows * 4 && y < rows && n <= cols
    ensures |RowDraws(frame, cols, rows, fs, mode, y, n)| <= n
  {
    if n > 0 {
      RowCount(frame, cols, rows, fs, mode, y, n - 1);
    }
  }

  /** Every draw of a row is legible. */
  lemma {:induction false} RowLegible(frame: seq<Byte>, cols: nat, rows: nat, fs: nat, mode: ColorMode,
                                      y: nat, n: nat)
    requires |frame| == cols * rows * 4 && y < rows && n <= cols && fs > 0
    ensures AllLegible(RowDraws(frame, cols, rows, fs, mode, y, n), cols, rows, fs, mode)
  {
    if n > 0 {
      RowLegible(frame, cols, rows, fs, mode, y, n - 1);
      RowStepLegible(frame, cols, rows, fs, mode, y, n);
    }
  }

  /** A legible row prefix stays legible with its next cell's draw. */
  lemma RowStepLegible(frame: seq<Byte>, cols: nat, rows: nat, fs: nat, mode: ColorMode, y: nat, n: nat)
    requires |frame| == cols * rows * 4 && y < rows && 0 < n <= cols && fs > 0
    requires AllLegible(RowDraws(frame, cols, rows, fs, mode, y, n - 1), cols, rows, fs, mode)
    ensures AllLegible(RowDraws(frame, cols, rows, fs, mode, y, n), cols, rows, fs, mode)
  {
    CellDrawsLegible(frame, cols, rows, fs, mode, n - 1, y);
    AllLegibleConcat(RowDraws(frame, cols, rows, fs, mode, y, n - 1),
                     DrawList(CellDraw(frame, cols, rows, fs, mode, n - 1, y)), cols, rows, fs, mode);
  }

  lemma CellDrawsLegible(frame: seq<Byte>, cols: nat, rows: nat, fs: nat, mode: ColorMode, x: nat, y: nat)
    requires |frame| == cols * rows * 4 && x < cols && y < rows && fs > 0
    ensures AllLegible(DrawList(CellDraw(frame, cols, rows, fs, mode, x, y)), cols, rows, fs, mode)
  {
    if CellDraw(frame, cols, rows, fs, mode, x, y).Some? {
      CellLegible(frame, cols, rows, fs, mode, x, y);
    }
  }

  /** The number of cells in m rows of cols cells, counted row by row. */
  function Cells(m: nat, cols: nat): nat
  {
    if m == 0 then 0 else Cells(m - 1, cols) + cols
  }

  lemma {:induction false} CellsProduct(m: nat, cols: nat)
    ensures Cells(m, cols) == m * cols
  {
    if m > 0 {
      CellsProduct(m - 1, cols);
      MulSucc(m - 1, cols);
    }
  }

  lemma {:induction false} GridCountCells(frame: seq<Byte>, cols: nat, rows: nat, fs: nat, mode: ColorMode, m: nat)
    requires |frame| == cols * rows * 4 && m <= rows
    ensures Cells(m, cols) >= |GridDraws(frame, cols, rows, fs, mode, m)|
  {
    if m > 0 {
      GridCountCells(frame, cols, rows, fs, mode, m - 1);
      GridCountStep(frame, cols, rows, fs, mode, m);
    }
  }

  /** One more row adds at most cols draws. */
  lemma GridCountStep(frame: seq<Byte>, cols: nat, rows: nat, fs: nat, mode: ColorMode, m: nat)
    requires |frame| == cols * rows * 4 && 0 < m <= rows
    requires Cells(m - 1, cols) >= |GridDraws(frame, cols, rows, fs, mode, m - 1)|
    ensures Cells(m, cols) >= |GridDraws(frame, cols, rows, fs, mode, m)|
  {
    RowCount(frame, cols, rows, fs, mode, m - 1, cols);
    var a, b := |GridDraws(frame, cols, rows, fs, mode, m - 1)|, |RowDraws(frame, cols, rows, fs, mode, m - 1, cols)|;
    assert |GridDraws(frame, cols, rows, fs, mode, m)| == a + b;
  }

  /** A frame yields at most one draw per cell. */
  lemma GridCount(frame: seq<Byte>, cols: nat, rows: nat, fs: nat, mode: ColorMode, m: nat)
    requires |frame| == cols * rows * 4 && m <= rows
    ensures |GridDraws(frame, cols, rows, fs, mode, m)| <= m * cols
  {
    GridCountCells(frame, cols, rows, fs, mode, m);
    CellsProduct(m, cols);
  }

  /** Every draw of a frame is legible. */
  lemma {:induction false} GridLegible(frame: seq<Byte>, cols: nat, rows: nat, fs: nat, mode: ColorMode, m: nat)
    requires |frame| == cols * rows * 4 && m <= rows && fs > 0
    ensures AllLegible(GridDraws(frame, cols, rows, fs, mode, m), cols, rows, fs, mode)
  {
    if m > 0 {
      GridLegible(frame, cols, rows, fs, mode, m - 1);
      RowLegible(frame, cols, rows, fs, mode, m - 1, cols);
      AllLegibleConcat(GridDraws(frame, cols, rows, fs, mode, m - 1),
                       RowDraws(frame, cols, rows, fs, mode, m - 1, cols), cols, rows, fs, mode);
    }
  }

  // ---------------------------------------------------------------------------
  // The chamber.
  // ---------------------------------------------------------------------------

  /** The canvas fill behind the glyphs: charcoal in the white palette. */
  datatype Background = Black | Charcoal

  function BackgroundFor(mode: ColorMode): Background
  {
    if mode == White then Charcoal else Black
  }

  /** What one render pass leaves on the screen. */
  datatype Screen =
    | NoSignal(bg: Background)
    | Ascii(bg: Background, layout: Layout, draws: seq<Draw>)

  /** A new canvas element is 300 × 150 pixels. */
  const DefaultCanvasWidth: nat := 300
  const DefaultCanvasHeight: nat := 150

  /** The chamber's state: the two controls and the size of the scratch canvas
      the frame is shrunk into. The scratch canvas belongs to the render effect,
      which restarts (with a fresh canvas) whenever a control changes. */
  class Digitiser {
    var density: Density
    var colorMode: ColorMode
    var scratchWidth: nat
    var scratchHeight: nat

    constructor ()
      ensures density == Med && colorMode == Matrix
      ensures scratchWidth == DefaultCanvasWidth && scratchHeight == DefaultCanvasHeight
    {
      density, colorMode := Med, Matrix;
      scratchWidth, scratchHeight := DefaultCanvasWidth, DefaultCanvasHeight;
    }

    /** A new density restarts the effect with a fresh scratch canvas;
        re-choosing the current one changes nothing. */
    method SetDensity(d: Density)
      modifies this
      ensures density == d && colorMode == old(colorMode)
      ensures d == old(density) ==> scratchWidth == old(scratchWidth) && scratchHeight == old(scratchHeight)
      ensures d != old(density) ==> scratchWidth == DefaultCanvasWidth && scratchHeight == DefaultCanvasHeight
    {
      if d != density {
        scratchWidth, scratchHeight := DefaultCanvasWidth, DefaultCanvasHeight;
      }
      density := d;
    }

    /** A new palette restarts the effect with a fresh scratch canvas;
        re-choosing the current one changes nothing. */
    method SetColorMode(c: ColorMode)
      modifies this
      ensures colorMode == c && density == old(density)
      ensures c == old(colorMode) ==> scratchWidth == old(scratchWidth) && scratchHeight == old(scratchHeight)
      ensures c != old(colorMode) ==> scratchWidth == DefaultCanvasWidth && scratchHeight == DefaultCanvasHeight
    {
      if c != colorMode {
        scratchWidth, scratchHeight := DefaultCanvasWidth, DefaultCanvasHeight;
      }
      colorMode := c;
    }

    /** One render pass on a w × h canvas. Without a camera frame only the
        no-signal notice is drawn. Otherwise the scratch canvas is resized to
        the glyph grid, `shrink(cols, rows)` gives the camera frame scaled to
        it (unmirrored RGBA), and every bright cell is drawn. Reading the
        pixels of an empty scratch canvas throws, so a frame needs a canvas
        of positive size. */
    method Render(w: nat, h: nat, hasSignal: bool, shrink: (nat, nat) -> seq<Byte>) returns (screen: Screen)
      requires forall c: nat, r: nat :: |shrink(c, r)| == c * r * 4
      requires hasSignal ==> w > 0 && h > 0
      modifies this`scratchWidth, this`scratchHeight
      ensures !hasSignal ==> screen == NoSignal(BackgroundFor(colorMode))
      ensures !hasSignal ==> scratchWidth == old(scratchWidth) && scratchHeight == old(scratchHeight)
      ensures hasSignal ==>
        var l := GridLayout(w, h, density);
        && scratchWidth == l.cols && scratchHeight == l.rows
        && screen == Ascii(BackgroundFor(colorMode), l,
                           GridDraws(shrink(l.cols, l.rows), l.cols, l.rows, l.fontSize, colorMode, l.rows))
    {
      if !hasSignal {
        return NoSignal(BackgroundFor(colorMode));
      }
      var l := GridLayout(w, h, density);
      if scratchWidth != l.cols || scratchHeight != l.rows {
        scratchWidth, scratchHeight := l.cols, l.rows;
      }
      var frame := shrink(l.cols, l.rows);
      var draws := Digitise(frame, l.cols, l.rows, l.fontSize, colorMode);
      screen := Ascii(BackgroundFor(colorMode), l, draws);
    }
  }
}
