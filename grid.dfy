/** The coordinate grid and mouse-position overlay of src/js/grid.js: a grid
    of evenly spaced lines with every boldNth line emphasised, numeric labels
    at the emphasised lines, and a label showing the pointer position. */
module CoordinateGrid {
  import opened Canvas
  import opened Decimal
  import opened Steps

  datatype Option<T> = None | Some(value: T)

  /** Font set before every label the grid and the mouse overlay draw. */
  const LabelFont := "16px Monospace"

  /** A line segment with its stroke colour and width. */
  datatype Line = Line(color: string, lineWidth: real, startX: int, startY: int, endX: int, endY: int)
  {
    /** Sets the stroke style to the line's own and strokes it. */
    method Draw(ctx: Context)
      modifies ctx`style, ctx`log
      ensures ctx.style == old(ctx.style).(strokeStyle := color, lineWidth := lineWidth)
      ensures ctx.log == old(ctx.log) + [StrokeOf(this)]
    {
      ctx.style := ctx.style.(strokeStyle := color, lineWidth := lineWidth);
      ctx.StrokeLine(startX, startY, endX, endY);
    }
  }

  /** The record a drawn line leaves in the log. */
  function StrokeOf(l: Line): Command {
    Stroke(l.startX, l.startY, l.endX, l.endY, l.color, l.lineWidth)
  }

  /** The six construction parameters of a grid. */
  datatype GridConfig = GridConfig(
    color: string, lineWidth: real, step: int,
    boldNth: int, boldColor: string, boldWidth: real)

  /** `coord % (boldNth * step) === 0` for a coordinate coord >= 0.  With a
      zero divisor the remainder is NaN, which equals nothing, so no line is
      bold. */
  predicate IsNth(c: GridConfig, coord: int) {
    var div := c.boldNth * c.step;
    div != 0 && coord % div == 0
  }

  /** Vertical line at x, from the top edge to the bottom edge. */
  function VerticalLine(c: GridConfig, x: int, height: nat): Line {
    if IsNth(c, x) then Line(c.boldColor, c.boldWidth, x, 0, x, height)
    else Line(c.color, c.lineWidth, x, 0, x, height)
  }

  /** Horizontal line at y, from the left edge to the right edge. */
  function HorizontalLine(c: GridConfig, y: int, width: nat): Line {
    if IsNth(c, y) then Line(c.boldColor, c.boldWidth, 0, y, width, y)
    else Line(c.color, c.lineWidth, 0, y, width, y)
  }

  function VerticalLines(c: GridConfig, xs: seq<int>, height: nat): seq<Line> {
    seq(|xs|, i requires 0 <= i < |xs| => VerticalLine(c, xs[i], height))
  }

  function HorizontalLines(c: GridConfig, ys: seq<int>, width: nat): seq<Line> {
    seq(|ys|, i requires 0 <= i < |ys| => HorizontalLine(c, ys[i], width))
  }

  /** The line set of a grid on a width x height canvas: the vertical lines in
      visiting order, then the horizontal ones. */
  function GridLines(c: GridConfig, width: nat, height: nat): seq<Line>
    requires c.step > 0
  {
    VerticalLines(c, Walk(0, c.step, width), height)
      + HorizontalLines(c, Walk(0, c.step, height), width)
  }

  /** Labels along the top edge, one per value in ms. */
  function TopLabels(ms: seq<int>, font: string, color: string): seq<Command> {
    seq(|ms|, i requires 0 <= i < |ms| => Text(IntToString(ms[i]), ms[i], 15, font, color))
  }

  /** Labels along the left edge, 15 pixels below each value in ms. */
  function SideLabels(ms: seq<int>, font: string, color: string): seq<Command> {
    seq(|ms|, i requires 0 <= i < |ms| => Text(IntToString(ms[i]), 0, ms[i] + 15, font, color))
  }

  /** The axis labels: "0" at the corner, then the bold x multiples along the
      top, then the bold y multiples along the left edge. */
  function Labels(c: GridConfig, width: nat, height: nat): seq<Command>
    requires c.step * c.boldNth > 0
  {
    var div := c.step * c.boldNth;
    [Text("0", 1, 15, LabelFont, c.boldColor)]
      + TopLabels(Walk(div, div, width), LabelFont, c.boldColor)
      + SideLabels(Walk(div, div, height), LabelFont, c.boldColor)
  }

  /** What drawing the lines ls one after another leaves in the log. */
  function LinesLog(ls: seq<Line>): seq<Command> {
    seq(|ls|, i requires 0 <= i < |ls| => StrokeOf(ls[i]))
  }

  /** The context style after drawing ls: the last line's stroke style. */
  function StyleAfterLines(s: Style, ls: seq<Line>): Style {
    if ls == [] then s
    else s.(strokeStyle := ls[|ls| - 1].color, lineWidth := ls[|ls| - 1].lineWidth)
  }

  /** The first loop of createLines: a vertical line at every x = 0, step,
      2*step, ... below the width, bold when x passes the bold test. */
  method CreateVerticalLines(c: GridConfig, width: nat, height: nat) returns (ls: seq<Line>)
    requires c.step > 0
    ensures ls == VerticalLines(c, Walk(0, c.step, width), height)
  {
    ls := [];
    var div := c.boldNth * c.step;
    var x := 0;
    ghost var xs: seq<int> := [];
    while x < width
      invariant xs + Walk(x, c.step, width) == Walk(0, c.step, width)
      invariant ls == VerticalLines(c, xs, height)
      decreases width - x
    {
      var isNth := div != 0 && x % div == 0;
      ls := ls + [if isNth then Line(c.boldColor, c.boldWidth, x, 0, x, height)
                  else Line(c.color, c.lineWidth, x, 0, x, height)];
      assert xs + [x] + Walk(x + c.step, c.step, width) == xs + Walk(x, c.step, width);
      xs := xs + [x];
      x := x + c.step;
    }
    assert xs == Walk(0, c.step, width);
  }

  /** The second loop of createLines: a horizontal line at every y = 0, step,
      2*step, ... below the height, bold when y passes the bold test. */
  method CreateHorizontalLines(c: GridConfig, width: nat, height: nat) returns (ls: seq<Line>)
    requires c.step > 0
    ensures ls == HorizontalLines(c, Walk(0, c.step, height), width)
  {
    ls := [];
    var div := c.boldNth * c.step;
    var y := 0;
    ghost var ys: seq<int> := [];
    while y < height
      invariant ys + Walk(y, c.step, height) == Walk(0, c.step, height)
      invariant ls == HorizontalLines(c, ys, width)
      decreases height - y
    {
      var isNth := div != 0 && y % div == 0;
      ls := ls + [if isNth then Line(c.boldColor, c.boldWidth, 0, y, width, y)
                  else Line(c.color, c.lineWidth, 0, y, width, y)];
      assert ys + [y] + Walk(y + c.step, c.step, height) == ys + Walk(y, c.step, height);
      ys := ys + [y];
      y := y + c.step;
    }
    assert ys == Walk(0, c.step, height);
  }

  /** The top-edge loop of drawText: the value x at (x, 15) for every
      positive multiple x of div below the canvas width. */
  method DrawTopLabels(ctx: Context, div: int)
    requires div > 0
    modifies ctx`log
    ensures ctx.log == old(ctx.log) + TopLabels(Walk(div, div, ctx.width), ctx.style.font, ctx.style.fillStyle)
  {
    var x := div;
    ghost var xs: seq<int> := [];
    while x < ctx.width
      invariant xs + Walk(x, div, ctx.width) == Walk(div, div, ctx.width)
      invariant ctx.log == old(ctx.log) + TopLabels(xs, ctx.style.font, ctx.style.fillStyle)
      decreases ctx.width - x
    {
      ctx.FillText(IntToString(x), x, 15);
      assert xs + [x] + Walk(x + div, div, ctx.width) == xs + Walk(x, div, ctx.width);
      xs := xs + [x];
      x := x + div;
    }
    assert xs == Walk(div, div, ctx.width);
  }

  /** The left-edge loop of drawText: the value y at (0, y + 15) for every
      positive multiple y of div below the canvas height. */
  method DrawSideLabels(ctx: Context, div: int)
    requires div > 0
    modifies ctx`log
    ensures ctx.log == old(ctx.log) + SideLabels(Walk(div, div, ctx.height), ctx.style.font, ctx.style.fillStyle)
  {
    var y := div;
    ghost var ys: seq<int> := [];
    while y < ctx.height
      invariant ys + Walk(y, div, ctx.height) == Walk(div, div, ctx.height)
      invariant ctx.log == old(ctx.log) + SideLabels(ys, ctx.style.font, ctx.style.fillStyle)
      decreases ctx.height - y
    {
      ctx.FillText(IntToString(y), 0, y + 15);
      assert ys + [y] + Walk(y + div, div, ctx.height) == ys + Walk(y, div, ctx.height);
      ys := ys + [y];
      y := y + div;
    }
    assert ys == Walk(div, div, ctx.height);
  }

  class Grid {
    const color: string
    const lineWidth: real
    const step: int
    const boldNth: int
    const boldColor: string
    const boldWidth: real
    /** The cached line set; None until the first draw. */
    var lines: Option<seq<Line>>

    constructor (
      color: string := "gray", lineWidth: real := 0.25, step: int := 25,
      boldNth: int := 5, boldColor: string := "Darkgray", boldWidth: real := 0.5)
      ensures Config() == GridConfig(color, lineWidth, step, boldNth, boldColor, boldWidth)
      ensures lines == None
    {
      this.color := color;
      this.lineWidth := lineWidth;
      this.step := step;
      this.boldNth := boldNth;
      this.boldColor := boldColor;
      this.boldWidth := boldWidth;
      lines := None;
    }

    function Config(): GridConfig {
      GridConfig(color, lineWidth, step, boldNth, boldColor, boldWidth)
    }

    /** Builds the line set for the canvas's current size and caches it. */
    method CreateLines(ctx: Context)
      requires step > 0
      modifies this`lines
      ensures lines == Some(GridLines(Config(), ctx.width, ctx.height))
    {
      var vertical := CreateVerticalLines(Config(), ctx.width, ctx.height);
      var horizontal := CreateHorizontalLines(Config(), ctx.width, ctx.height);
      lines := Some(vertical + horizontal);
    }

    /** Draws "0" at the corner and the numeric labels of the bold lines. */
    method DrawText(ctx: Context)
      requires step * boldNth > 0
      modifies ctx`style, ctx`log
      ensures ctx.style == old(ctx.style).(font := LabelFont, fillStyle := boldColor)
      ensures ctx.log == old(ctx.log) + Labels(Config(), ctx.width, ctx.height)
    {
      ctx.style := ctx.style.(font := LabelFont, fillStyle := boldColor);
      ctx.FillText("0", 1, 15);
      var div := step * boldNth;
      DrawTopLabels(ctx, div);
      DrawSideLabels(ctx, div);
    }

    /** Builds the line set on the first call only, then draws every cached
        line and the labels. */
    method Draw(ctx: Context)
      requires step > 0 && boldNth > 0
      modifies this`lines, ctx`style, ctx`log
      ensures old(lines).Some? ==> lines == old(lines)
      ensures old(lines).None? ==> lines == Some(GridLines(Config(), ctx.width, ctx.height))
      ensures lines.Some?
      ensures ctx.log == old(ctx.log) + LinesLog(lines.value) + Labels(Config(), ctx.width, ctx.height)
      ensures ctx.style == StyleAfterLines(old(ctx.style), lines.value).(font := LabelFont, fillStyle := boldColor)
    {
      if lines.None? {
        CreateLines(ctx);
      }
      var ls := lines.value;
      for i := 0 to |ls|
        invariant lines == Some(ls)
        invariant ctx.log == old(ctx.log) + LinesLog(ls[..i])
        invariant ctx.style == StyleAfterLines(old(ctx.style), ls[..i])
      {
        ls[i].Draw(ctx);
        assert ls[..i + 1] == ls[..i] + [ls[i]];
      }
      assert ls[..|ls|] == ls;
      DrawText(ctx);
    }
  }

  /** There are ceil(width/step) vertical lines and then ceil(height/step)
      horizontal lines. */
  lemma GridLineCount(c: GridConfig, width: nat, height: nat)
    requires c.step > 0
    ensures |GridLines(c, width, height)| == CeilDiv(width, c.step) + CeilDiv(height, c.step)
  {
    WalkLength(0, c.step, width);
    WalkLength(0, c.step, height);
  }

  /** Line i, for i below ceil(width/step), is the vertical line at x = i*step
      from the top edge to the bottom edge, styled bold exactly when x passes
      the bold test. */
  lemma VerticalLineAt(c: GridConfig, width: nat, height: nat, i: nat)
    requires c.step > 0
    requires i < CeilDiv(width, c.step)
    ensures i < |GridLines(c, width, height)|
    ensures var l := GridLines(c, width, height)[i];
      l.startX == i * c.step && l.endX == i * c.step && i * c.step < width
      && l.startY == 0 && l.endY == height
      && if IsNth(c, i * c.step) then l.color == c.boldColor && l.lineWidth == c.boldWidth
         else l.color == c.color && l.lineWidth == c.lineWidth
  {
    GridLineCount(c, width, height);
    WalkLength(0, c.step, width);
    WalkAt(0, c.step, width, i);
  }

  /** Line ceil(width/step) + j is the horizontal line at y = j*step from the
      left edge to the right edge, styled bold exactly when y passes the bold
      test. */
  lemma HorizontalLineAt(c: GridConfig, width: nat, height: nat, j: nat)
    requires c.step > 0
    requires j < CeilDiv(height, c.step)
    ensures CeilDiv(width, c.step) + j < |GridLines(c, width, height)|
    ensures var l := GridLines(c, width, height)[CeilDiv(width, c.step) + j];
      l.startY == j * c.step && l.endY == j * c.step && j * c.step < height
      && l.startX == 0 && l.endX == width
      && if IsNth(c, j * c.step) then l.color == c.boldColor && l.lineWidth == c.boldWidth
         else l.color == c.color && l.lineWidth == c.lineWidth
  {
    GridLineCount(c, width, height);
    WalkLength(0, c.step, width);
    WalkLength(0, c.step, height);
    WalkAt(0, c.step, height, j);
  }

  /** (i*s) mod (n*s) vanishes exactly when i mod n does. */
  lemma ScaledMod(i: int, n: int, s: int)
    requires s > 0 && n > 0
    ensures (i * s) % (n * s) == 0 <==> i % n == 0
  {
    var q, r := i / n, i % n;
    assert i * s == q * (n * s) + r * s;
    assert n * s - r * s == (n - r) * s;
    DivModUnique(i * s, n * s, q, r * s);
    assert r * s == 0 <==> r == 0;
  }

  /** With a positive boldNth, every boldNth-th line of each group, counting
      from the first, is bold and no other is. */
  lemma EveryNthLineBold(c: GridConfig, width: nat, height: nat, k: nat)
    requires c.step > 0 && c.boldNth > 0
    requires k < |GridLines(c, width, height)|
    ensures var nv := CeilDiv(width, c.step);
      var l := GridLines(c, width, height)[k];
      var index := if k < nv then k else k - nv;
      if index % c.boldNth == 0 then l.color == c.boldColor && l.lineWidth == c.boldWidth
      else l.color == c.color && l.lineWidth == c.lineWidth
  {
    var nv := CeilDiv(width, c.step);
    GridLineCount(c, width, height);
    var index := if k < nv then k else k - nv;
    ScaledMod(index, c.boldNth, c.step);
    assert c.boldNth * c.step == c.step * c.boldNth;
    if k < nv {
      VerticalLineAt(c, width, height, k);
    } else {
      HorizontalLineAt(c, width, height, k - nv);
    }
  }

  /** The vertical lines sit exactly at the multiples of step in [0, width). */
  lemma VerticalLinePositions(c: GridConfig, width: nat, height: nat, x: int)
    requires c.step > 0
    ensures (exists i :: 0 <= i < |GridLines(c, width, height)| && i < CeilDiv(width, c.step)
               && GridLines(c, width, height)[i].startX == x)
        <==> 0 <= x < width && x % c.step == 0
  {
    var xs := Walk(0, c.step, width);
    WalkLength(0, c.step, width);
    WalkMembers(0, c.step, width, x);
    GridLineCount(c, width, height);
    if 0 <= x < width && x % c.step == 0 {
      var i :| 0 <= i < |xs| && xs[i] == x;
      assert GridLines(c, width, height)[i].startX == x;
    }
    if exists i :: 0 <= i < |GridLines(c, width, height)| && i < CeilDiv(width, c.step)
                   && GridLines(c, width, height)[i].startX == x {
      var i :| 0 <= i < |GridLines(c, width, height)| && i < CeilDiv(width, c.step)
               && GridLines(c, width, height)[i].startX == x;
      assert xs[i] == x;
    }
  }

  /** The horizontal lines sit exactly at the multiples of step in [0, height). */
  lemma HorizontalLinePositions(c: GridConfig, width: nat, height: nat, y: int)
    requires c.step > 0
    ensures (exists j :: CeilDiv(width, c.step) <= j < |GridLines(c, width, height)|
               && GridLines(c, width, height)[j].startY == y)
        <==> 0 <= y < height && y % c.step == 0
  {
    var nv := CeilDiv(width, c.step);
    var ys := Walk(0, c.step, height);
    WalkLength(0, c.step, width);
    WalkLength(0, c.step, height);
    WalkMembers(0, c.step, height, y);
    GridLineCount(c, width, height);
    if 0 <= y < height && y % c.step == 0 {
      var j :| 0 <= j < |ys| && ys[j] == y;
      assert GridLines(c, width, height)[nv + j].startY == y;
    }
    if exists j :: nv <= j < |GridLines(c, width, height)| && GridLines(c, width, height)[j].startY == y {
      var j :| nv <= j < |GridLines(c, width, height)| && GridLines(c, width, height)[j].startY == y;
      assert ys[j - nv] == y;
    }
  }

  /** A positive value lies on the label walk of drawText exactly when it is a
      multiple of div below the limit. */
  lemma LabelWalkMembers(div: int, limit: int, m: int)
    requires div > 0
    ensures m in Walk(div, div, limit) <==> 0 < m < limit && m % div == 0
  {
    WalkMembers(div, div, limit, m);
    ShiftMod(m, div);
    if 0 < m && m % div == 0 {
      DivisibleAtLeast(m, div);
    }
  }

  /** A number label sits on the top edge at (m, 15) exactly when m is a
      positive multiple of step*boldNth below the canvas width. */
  lemma TopLabelsExactly(c: GridConfig, width: nat, height: nat, m: int)
    requires c.step > 0 && c.boldNth > 0
    ensures Text(IntToString(m), m, 15, LabelFont, c.boldColor) in Labels(c, width, height)
        <==> 0 < m < width && m % (c.step * c.boldNth) == 0
  {
    var div := c.step * c.boldNth;
    var txt := Text(IntToString(m), m, 15, LabelFont, c.boldColor);
    var top, side := Walk(div, div, width), Walk(div, div, height);
    LabelWalkMembers(div, width, m);
    if txt in TopLabels(top, LabelFont, c.boldColor) {
      var k :| 0 <= k < |top| && TopLabels(top, LabelFont, c.boldColor)[k] == txt;
      assert top[k] == m;
    }
    if m in top {
      var k :| 0 <= k < |top| && top[k] == m;
      assert TopLabels(top, LabelFont, c.boldColor)[k] == txt;
    }
    forall k | 0 <= k < |side|
      ensures SideLabels(side, LabelFont, c.boldColor)[k].y != 15
    {
      LabelWalkMembers(div, height, side[k]);
    }
    if m == 1 {
      assert IntToString(m) == "1";
    }
  }

  /** A number label sits on the left edge at (0, m + 15) exactly when m is a
      positive multiple of step*boldNth below the canvas height. */
  lemma SideLabelsExactly(c: GridConfig, width: nat, height: nat, m: int)
    requires c.step > 0 && c.boldNth > 0
    ensures Text(IntToString(m), 0, m + 15, LabelFont, c.boldColor) in Labels(c, width, height)
        <==> 0 < m < height && m % (c.step * c.boldNth) == 0
  {
    var div := c.step * c.boldNth;
    var txt := Text(IntToString(m), 0, m + 15, LabelFont, c.boldColor);
    var top, side := Walk(div, div, width), Walk(div, div, height);
    LabelWalkMembers(div, height, m);
    if txt in SideLabels(side, LabelFont, c.boldColor) {
      var k :| 0 <= k < |side| && SideLabels(side, LabelFont, c.boldColor)[k] == txt;
      assert side[k] == m;
    }
    if m in side {
      var k :| 0 <= k < |side| && side[k] == m;
      assert SideLabels(side, LabelFont, c.boldColor)[k] == txt;
    }
    forall k | 0 <= k < |top|
      ensures TopLabels(top, LabelFont, c.boldColor)[k].x != 0
    {
      LabelWalkMembers(div, width, top[k]);
    }
  }

  /** Every number label marks a bold line: the value m of a top label is the
      x of vertical line m/step, and the value of a left-edge label is the y
      of horizontal line m/step, both styled bold. */
  lemma LabelsMarkBoldLines(c: GridConfig, width: nat, height: nat, m: int)
    requires c.step > 0 && c.boldNth > 0
    requires 0 < m && m % (c.step * c.boldNth) == 0
    ensures var nv := CeilDiv(width, c.step);
      var ls := GridLines(c, width, height);
      (m < width ==>
         (m / c.step < nv && m / c.step < |ls| && ls[m / c.step].startX == m
          && ls[m / c.step].color == c.boldColor && ls[m / c.step].lineWidth == c.boldWidth))
      && (m < height ==>
         (nv + m / c.step < |ls| && ls[nv + m / c.step].startY == m
          && ls[nv + m / c.step].color == c.boldColor && ls[nv + m / c.step].lineWidth == c.boldWidth))
  {
    var div := c.step * c.boldNth;
    var k := m / c.step;
    assert m == k * c.step && IsNth(c, m) by {
      var q := m / div;
      DivModUnique(m, div, q, 0);
      assert m == (q * c.boldNth) * c.step;
      DivModUnique(m, c.step, q * c.boldNth, 0);
      assert c.boldNth * c.step == div;
    }
    if m < width {
      assert k < CeilDiv(width, c.step) by {
        AtMultiple(c.step, width, m, k);
      }
      VerticalLineAt(c, width, height, k);
    }
    if m < height {
      assert k < CeilDiv(height, c.step) by {
        AtMultiple(c.step, height, m, k);
      }
      HorizontalLineAt(c, width, height, k);
    }
  }

  /** A multiple m = k*step below the limit is visited, as the k-th value. */
  lemma AtMultiple(step: int, limit: nat, m: int, k: nat)
    requires step > 0 && 0 <= m < limit && m == k * step
    ensures k < CeilDiv(limit, step)
  {
    WalkLength(0, step, limit);
    WalkMembers(0, step, limit, m);
    DivModUnique(m, step, k, 0);
    var xs := Walk(0, step, limit);
    var i :| 0 <= i < |xs| && xs[i] == m;
    WalkAt(0, step, limit, i);
    DivModUnique(m, step, i, 0);
  }

  /** With a non-zero boldNth the first line of each group, at coordinate 0,
      is bold. */
  lemma FirstLinesBold(c: GridConfig, width: nat, height: nat)
    requires c.step > 0 && c.boldNth != 0
    ensures var ls := GridLines(c, width, height);
      var nv := CeilDiv(width, c.step);
      |ls| == nv + CeilDiv(height, c.step)
      && (width > 0 ==> ls[0].color == c.boldColor && ls[0].lineWidth == c.boldWidth)
      && (height > 0 ==> ls[nv].color == c.boldColor && ls[nv].lineWidth == c.boldWidth)
  {
    GridLineCount(c, width, height);
    if width > 0 {
      VerticalLineAt(c, width, height, 0);
    }
    if height > 0 {
      HorizontalLineAt(c, width, height, 0);
    }
  }

  /** The grid of the first iteration's set-up, Grid('gray', 0.25, 50, 2), on a
      200 x 100 canvas: four vertical lines, bold at x = 0 and x = 100, two
      horizontal lines, bold at y = 0, and one number label, "100". */
  lemma ExampleGrid()
    ensures var c := GridConfig("gray", 0.25, 50, 2, "Darkgray", 0.5);
      GridLines(c, 200, 100) == [
        Line("Darkgray", 0.5, 0, 0, 0, 100), Line("gray", 0.25, 50, 0, 50, 100),
        Line("Darkgray", 0.5, 100, 0, 100, 100), Line("gray", 0.25, 150, 0, 150, 100),
        Line("Darkgray", 0.5, 0, 0, 200, 0), Line("gray", 0.25, 0, 50, 200, 50)]
      && Labels(c, 200, 100) == [
        Text("0", 1, 15, LabelFont, "Darkgray"), Text("100", 100, 15, LabelFont, "Darkgray")]
  {
    assert Walk(0, 50, 200) == [0, 50, 100, 150] by {
      assert Walk(150, 50, 200) == [150];
      assert Walk(100, 50, 200) == [100, 150];
    }
    assert Walk(0, 50, 100) == [0, 50];
    assert Walk(100, 100, 200) == [100];
    assert Walk(100, 100, 100) == [];
    assert IntToString(100) == "100" by {
      assert NatToString(10) == "10";
    }
  }

  /** Pointer position relative to an edge at `edge`: Math.floor(client - edge). */
  function RelativeCoord(client: real, edge: real): (r: int)
    ensures r as real <= client - edge < r as real + 1.0
  {
    (client - edge).Floor
  }

  /** Text of the position label. */
  function PositionText(x: int, y: int): string {
    "X: " + IntToString(x) + ", Y: " + IntToString(y)
  }

  /** The position label identifies the pointer position: different
      positions never show the same text. */
  lemma PositionTextInjective(x1: int, y1: int, x2: int, y2: int)
    requires PositionText(x1, y1) == PositionText(x2, y2)
    ensures x1 == x2 && y1 == y2
  {
    var a1, b1, a2, b2 := IntToString(x1), IntToString(y1), IntToString(x2), IntToString(y2);
    var s := PositionText(x1, y1);
    assert s == "X: " + a1 + ", Y: " + b1;
    assert s == "X: " + a2 + ", Y: " + b2;
    IntToStringNoComma(x1);
    IntToStringNoComma(x2);
    assert s[3 + |a1|] == ',';
    assert s[3 + |a2|] == ',';
    assert forall i :: 0 <= i < |a1| ==> s[3 + i] == a1[i];
    assert forall i :: 0 <= i < |a2| ==> s[3 + i] == a2[i];
    assert a1 == s[3..3 + |a1|] == a2;
    assert b1 == s[8 + |a1|..] == b2;
    IntToStringInjective(x1, x2);
    IntToStringInjective(y1, y2);
  }

  /** Horizontal label offset: in the left half of the canvas the label starts
      20 pixels right of the pointer; otherwise it ends 20 pixels left of it. */
  function OffsetX(x: int, width: nat, textWidth: nat): (r: int)
    ensures r > 0 <==> 2 * x < width
    ensures 2 * x < width ==> r == 20
    ensures 2 * x >= width ==> r + textWidth == -20
  {
    if 2 * x < width then 20 else -(textWidth as int) - 20
  }

  /** Vertical label offset: below the pointer in the top half, above it in
      the bottom half. */
  function OffsetY(y: int, height: nat): (r: int)
    ensures r > 0 <==> 2 * y < height
    ensures r == 25 || r == -18
  {
    if 2 * y < height then 25 else -18
  }

  /** The position label drawn for a pointer at (x, y). */
  function PositionLabel(x: int, y: int, width: nat, height: nat, textWidth: nat, color: string): Command {
    Text(PositionText(x, y), x + OffsetX(x, width, textWidth), y + OffsetY(y, height), LabelFont, color)
  }

  class Mouse {
    var x: int
    var y: int
    const ctx: Context

    constructor (ctx: Context, x: int := 0, y: int := 0)
      ensures this.ctx == ctx && this.x == x && this.y == y
    {
      this.x := x;
      this.y := y;
      this.ctx := ctx;
    }

    /** The `pos` setter: stores the pointer position relative to the
        canvas's bounding box and draws the position label.  textWidth is what
        measuring the label text in the label font returns. */
    method SetPos(clientX: real, clientY: real, rectLeft: real, rectTop: real, textWidth: nat)
      modifies this`x, this`y, ctx`style, ctx`log
      ensures x == RelativeCoord(clientX, rectLeft) && y == RelativeCoord(clientY, rectTop)
      ensures ctx.style == old(ctx.style).(font := LabelFont)
      ensures ctx.log == old(ctx.log)
        + [PositionLabel(x, y, ctx.width, ctx.height, textWidth, old(ctx.style).fillStyle)]
    {
      x := (clientX - rectLeft).Floor;
      y := (clientY - rectTop).Floor;
      var txt := PositionText(x, y);
      ctx.style := ctx.style.(font := LabelFont);
      var offsetX := if 2 * x < ctx.width then 20 else -(textWidth as int) - 20;
      var offsetY := if 2 * y < ctx.height then 25 else -18;
      ctx.FillText(txt, x + offsetX, y + offsetY);
    }
  }
}
