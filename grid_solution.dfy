/** The fixed-step grid of src/js/gridSolution.js: a line every 50 pixels in
    each direction, each followed by a label with its coordinate, drawn in a
    style that is saved before and restored after. */
module GridSolution {
  import opened Canvas
  import opened Decimal
  import opened Steps

  /** Spacing between grid lines. */
  const GridStep := 50

  /** The style createGrid draws in. */
  const GridStyle := Style("gray", "black", "14px Monospace", 0.35)

  /** The stroke of a vertical line at x followed by its label at (x, 12). */
  function VerticalPair(x: int, height: nat, st: Style): seq<Command> {
    [Stroke(x, 0, x, height, st.strokeStyle, st.lineWidth), Text(IntToString(x), x, 12, st.font, st.fillStyle)]
  }

  /** The stroke of a horizontal line at y followed by its label at (0, y). */
  function HorizontalPair(y: int, width: nat, st: Style): seq<Command> {
    [Stroke(0, y, width, y, st.strokeStyle, st.lineWidth), Text(IntToString(y), 0, y, st.font, st.fillStyle)]
  }

  function VerticalCommands(xs: seq<int>, height: nat, st: Style): seq<Command> {
    if xs == [] then []
    else VerticalCommands(xs[..|xs| - 1], height, st) + VerticalPair(xs[|xs| - 1], height, st)
  }

  function HorizontalCommands(ys: seq<int>, width: nat, st: Style): seq<Command> {
    if ys == [] then []
    else HorizontalCommands(ys[..|ys| - 1], width, st) + HorizontalPair(ys[|ys| - 1], width, st)
  }

  /** Everything createGrid draws on a width x height canvas, in order. */
  function GridCommands(width: nat, height: nat): seq<Command> {
    VerticalCommands(Walk(0, GridStep, width), height, GridStyle)
      + HorizontalCommands(Walk(0, GridStep, height), width, GridStyle)
  }

  /** The commands for xs come in pairs: the stroke for xs[i] at 2i and its
      label at 2i + 1. */
  lemma {:induction false} VerticalCommandsAt(xs: seq<int>, height: nat, st: Style, i: nat)
    requires i < |xs|
    ensures |VerticalCommands(xs, height, st)| == 2 * |xs|
    ensures VerticalCommands(xs, height, st)[2 * i] == Stroke(xs[i], 0, xs[i], height, st.strokeStyle, st.lineWidth)
    ensures VerticalCommands(xs, height, st)[2 * i + 1] == Text(IntToString(xs[i]), xs[i], 12, st.font, st.fillStyle)
  {
    var init := xs[..|xs| - 1];
    if i < |init| {
      VerticalCommandsAt(init, height, st, i);
    } else if init != [] {
      VerticalCommandsAt(init, height, st, 0);
    }
  }

  lemma {:induction false} HorizontalCommandsAt(ys: seq<int>, width: nat, st: Style, j: nat)
    requires j < |ys|
    ensures |HorizontalCommands(ys, width, st)| == 2 * |ys|
    ensures HorizontalCommands(ys, width, st)[2 * j] == Stroke(0, ys[j], width, ys[j], st.strokeStyle, st.lineWidth)
    ensures HorizontalCommands(ys, width, st)[2 * j + 1] == Text(IntToString(ys[j]), 0, ys[j], st.font, st.fillStyle)
  {
    var init := ys[..|ys| - 1];
    if j < |init| {
      HorizontalCommandsAt(init, width, st, j);
    } else if init != [] {
      HorizontalCommandsAt(init, width, st, 0);
    }
  }

  /** Two commands per coordinate.  The indexed lemmas above also give the
      length, but only for a non-empty sequence; this covers every sequence,
      the empty one included. */
  lemma {:induction false} CommandsLength(xs: seq<int>, height: nat, width: nat, st: Style)
    ensures |VerticalCommands(xs, height, st)| == 2 * |xs|
    ensures |HorizontalCommands(xs, width, st)| == 2 * |xs|
  {
    if xs != [] {
      CommandsLength(xs[..|xs| - 1], height, width, st);
    }
  }

  /** createGrid draws two commands per line: ceil(width/50) vertical and
      ceil(height/50) horizontal lines. */
  lemma GridCommandCount(width: nat, height: nat)
    ensures |GridCommands(width, height)| == 2 * (CeilDiv(width, GridStep) + CeilDiv(height, GridStep))
  {
    var xs, ys := Walk(0, GridStep, width), Walk(0, GridStep, height);
    assert |VerticalCommands(xs, height, GridStyle)| == 2 * CeilDiv(width, GridStep) by {
      WalkLength(0, GridStep, width);
      CommandsLength(xs, height, width, GridStyle);
    }
    assert |HorizontalCommands(ys, width, GridStyle)| == 2 * CeilDiv(height, GridStep) by {
      WalkLength(0, GridStep, height);
      CommandsLength(ys, height, width, GridStyle);
    }
  }

  /** The i-th vertical line is at x = 50i < width, from (x, 0) to
      (x, height) in gray at width 0.35, and is followed by the label x at
      (x, 12) in black 14px Monospace. */
  lemma VerticalLineAt(width: nat, height: nat, i: nat)
    requires i < CeilDiv(width, GridStep)
    ensures var x := GridStep * i;
      x < width && 2 * i + 1 < |GridCommands(width, height)|
      && GridCommands(width, height)[2 * i] == Stroke(x, 0, x, height, "gray", 0.35)
      && GridCommands(width, height)[2 * i + 1] == Text(IntToString(x), x, 12, "14px Monospace", "black")
  {
    var xs := Walk(0, GridStep, width);
    GridCommandCount(width, height);
    WalkLength(0, GridStep, width);
    WalkAt(0, GridStep, width, i);
    VerticalCommandsAt(xs, height, GridStyle, i);
  }

  /** After all vertical pairs, the j-th horizontal line is at y = 50j <
      height, from (0, y) to (width, y), and is followed by the label y at
      (0, y). */
  lemma HorizontalLineAt(width: nat, height: nat, j: nat)
    requires j < CeilDiv(height, GridStep)
    ensures var y := GridStep * j;
      var k := 2 * CeilDiv(width, GridStep) + 2 * j;
      y < height && k + 1 < |GridCommands(width, height)|
      && GridCommands(width, height)[k] == Stroke(0, y, width, y, "gray", 0.35)
      && GridCommands(width, height)[k + 1] == Text(IntToString(y), 0, y, "14px Monospace", "black")
  {
    var xs, ys := Walk(0, GridStep, width), Walk(0, GridStep, height);
    var v, h := VerticalCommands(xs, height, GridStyle), HorizontalCommands(ys, width, GridStyle);
    assert |v| == 2 * CeilDiv(width, GridStep) by {
      WalkLength(0, GridStep, width);
      CommandsLength(xs, height, width, GridStyle);
    }
    assert j < |ys| && ys[j] == GridStep * j < height by {
      WalkLength(0, GridStep, height);
      WalkAt(0, GridStep, height, j);
    }
    HorizontalCommandsAt(ys, width, GridStyle, j);
    assert GridCommands(width, height) == v + h;
  }

  /** Draws the grid between save() and restore(), so the context's style
      and saved-style stack are as before. */
  method CreateGrid(ctx: Context)
    modifies ctx`style, ctx`saved, ctx`log
    ensures ctx.log == old(ctx.log) + GridCommands(ctx.width, ctx.height)
    ensures ctx.style == old(ctx.style) && ctx.saved == old(ctx.saved)
  {
    ctx.Save();
    ctx.style := ctx.style.(strokeStyle := "gray");
    ctx.style := ctx.style.(fillStyle := "black");
    ctx.style := ctx.style.(font := "14px Monospace");
    ctx.style := ctx.style.(lineWidth := 0.35);
    ghost var start := ctx.log;
    ghost var v := VerticalCommands(Walk(0, GridStep, ctx.width), ctx.height, GridStyle);
    ghost var h := HorizontalCommands(Walk(0, GridStep, ctx.height), ctx.width, GridStyle);

    DrawVertical(ctx);
    assert ctx.log == start + v;
    DrawHorizontal(ctx);
    assert ctx.log == start + v + h;
    assert start + v + h == start + GridCommands(ctx.width, ctx.height);

    assert (old(ctx.saved) + [old(ctx.style)])[..|old(ctx.saved)|] == old(ctx.saved);
    ctx.Restore();
  }

  /** The first loop of createGrid: a vertical line and its label at every
      x = 0, 50, 100, ... below the width, in the current style. */
  method DrawVertical(ctx: Context)
    modifies ctx`log
    ensures ctx.log == old(ctx.log) + VerticalCommands(Walk(0, GridStep, ctx.width), ctx.height, ctx.style)
  {
    var step := GridStep;
    var width := ctx.width;
    var height := ctx.height;
    var x := 0;
    ghost var xs: seq<int> := [];
    while x < width
      invariant xs + Walk(x, step, width) == Walk(0, step, width)
      invariant ctx.log == old(ctx.log) + VerticalCommands(xs, height, ctx.style)
      decreases width - x
    {
      ctx.StrokeLine(x, 0, x, height);
      ctx.FillText(IntToString(x), x, 12);
      assert (xs + [x])[..|xs|] == xs;
      assert xs + [x] + Walk(x + step, step, width) == xs + Walk(x, step, width);
      xs := xs + [x];
      x := x + step;
    }
    assert xs == Walk(0, step, width);
  }

  /** The second loop of createGrid: a horizontal line and its label at every
      y = 0, 50, 100, ... below the height, in the current style. */
  method DrawHorizontal(ctx: Context)
    modifies ctx`log
    ensures ctx.log == old(ctx.log) + HorizontalCommands(Walk(0, GridStep, ctx.height), ctx.width, ctx.style)
  {
    var step := GridStep;
    var width := ctx.width;
    var height := ctx.height;
    var y := 0;
    ghost var ys: seq<int> := [];
    while y < height
      invariant ys + Walk(y, step, height) == Walk(0, step, height)
      invariant ctx.log == old(ctx.log) + HorizontalCommands(ys, width, ctx.style)
      decreases height - y
    {
      ctx.StrokeLine(0, y, width, y);
      ctx.FillText(IntToString(y), 0, y);
      assert (ys + [y])[..|ys|] == ys;
      assert ys + [y] + Walk(y + step, step, height) == ys + Walk(y, step, height);
      ys := ys + [y];
      y := y + step;
    }
    assert ys == Walk(0, step, height);
  }
}
