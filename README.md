# Canvas shapes and coordinate grids, modelled in Dafny

This project models the drawing logic of a small HTML-canvas tutorial
repository:

- **The coordinate-grid helper** (`src/js/grid.js`):
  - a `Line` value that strokes itself onto a 2D context;
  - a `Grid` whose thin and bold lines are computed once and cached in its
    `lines` field, and then drawn with numeric labels on the bold lines;
  - a `Mouse` overlay that turns a pointer event into canvas coordinates and
    writes them next to the pointer.
- **The `Rectangle` of the shapes page** (`src/js/index.js`): its constructor
  defaults, its derived edges and area, and the four child squares placed
  flush against a parent.
- **The exercise's reference solution** (`src/js/gridSolution.js`):
  `createGrid`, which draws a labelled line every 50 pixels between `save()`
  and `restore()`.

The canvas is modelled by the `Canvas.Context` class (`canvas.dfy`). It holds:

- the canvas width and height;
- the current style (stroke colour, fill colour, font and line width);
- the stack that `save()` and `restore()` push and pop;
- an append-only log of drawing commands.

A path that is begun, moved, extended and stroked becomes one `Stroke`
record in the style in force. A `fillText` call becomes one `Text` record
in the font and fill colour in force. Every drawing method is proved to
append exactly a sequence given by a specification function. The
properties the code promises are then proved about those functions.

The modules are:

- `Steps` (`steps.dfy`): `Walk(start, step, limit)`, the coordinates that
  a `for (v = start; v < limit; v += step)` loop visits, and their count.
- `Decimal` (`decimal.dfy`): the decimal text JavaScript gives an integer
  pixel value. It is proved to read back as that value.
- `Canvas` (`canvas.dfy`): the 2D context.
- `CoordinateGrid` (`grid.dfy`): `src/js/grid.js`.
- `Shapes` (`shapes.dfy`): the `Rectangle` of `src/js/index.js`.
- `GridSolution` (`grid_solution.dfy`): `src/js/gridSolution.js`.

Grid coordinates, `step` and `boldNth` are integers. JavaScript computes
`x % (boldNth * step) === 0`. When `boldNth * step` is 0 the remainder is
NaN, and NaN equals nothing, so that line is never bold. The model's bold
test (`CoordinateGrid.IsNth`) therefore requires a non-zero divisor. The test
`x < canvas.width / 2` divides as a real number, so it is modelled exactly
as `2 * x < width`.

Points of the code that the model keeps as written:

- `lines` is built only while it is null (`src/js/grid.js:148`) and is
  never reset, so `Grid.Draw` reuses a cached line set even after the canvas
  is resized. An empty line set (`[]`) is truthy in JavaScript, so it stays
  cached too.
- The `Grid` constructor (`src/js/grid.js:62-77`) validates none of its
  arguments. The model's `requires` clauses name the conditions under which
  the drawing loops end.
- The default bold colour is `'Darkgray'`.
- `Mouse` holds only `x`, `y` and `ctx` (`src/js/grid.js:9-13`). `x` and
  `y` start at 0 and each pointer event overwrites them.

## Model

| member | source | states |
|---|---|---|
| Steps.WalkLength | src/js/grid.js:93 | a `for (v = start; v < limit; v += step)` loop with step > 0 runs ceil((limit − start)/step) times, and not at all when start ≥ limit |
| Steps.WalkAt | src/js/grid.js:93 | the k-th value visited is start + k·step, and it is below the limit |
| Steps.WalkMembers | src/js/grid.js:109 | a value is visited exactly when it lies in [start, limit) and differs from start by a multiple of step |
| Steps.WalkIncreasing | src/js/grid.js:93 | the visited values are strictly increasing |
| Decimal.NatToString | src/js/grid.js:136 | the text of a number is a non-empty digit string, and it begins with '0' only for 0, which is "0" |
| Decimal.IntToString | src/js/grid.js:24 | the text of an integer begins with '-' exactly when it is negative; the digits (after the sign, if any) are one or more with no leading zero, except that 0 is "0" |
| Decimal.NatToStringValue | src/js/grid.js:136 | reading the digits of the text of n gives back n |
| Decimal.IntToStringValue | src/js/grid.js:24 | the text of an integer reads back as it: the digits give the magnitude, and the sign marks a negative value |
| Decimal.IntToStringInjective | src/js/grid.js:136 | two different values never get the same label text |
| CoordinateGrid.Line.Draw | src/js/grid.js:48-57 | drawing a line sets the stroke colour and line width to the line's own, and appends one stroke from its start to its end in them |
| CoordinateGrid.CreateVerticalLines | src/js/grid.js:93-106 | the first loop produces one line per x = 0, step, 2·step, … below the width, in that order, each spanning the full height and bold exactly when the bold test holds |
| CoordinateGrid.CreateHorizontalLines | src/js/grid.js:109-117 | the second loop produces one line per y = 0, step, … below the height, in that order, each spanning the full width and bold exactly when the bold test holds |
| CoordinateGrid.Grid.constructor | src/js/grid.js:62-77 | the defaults are gray, 0.25, 25, 5, Darkgray and 0.5, and `lines` starts absent |
| CoordinateGrid.Grid.CreateLines | src/js/grid.js:80-121 | for step > 0, `lines` becomes all vertical lines followed by all horizontal lines for the context's current width and height |
| CoordinateGrid.DrawTopLabels | src/js/grid.js:134-137 | appends the label m at (m, 15) for every m = div, 2·div, … below the width, in the label font and colour in force |
| CoordinateGrid.DrawSideLabels | src/js/grid.js:140-143 | appends the label m at (0, m + 15) for every m = div, 2·div, … below the height |
| CoordinateGrid.Grid.DrawText | src/js/grid.js:123-144 | sets the font to 16px Monospace and the fill colour to the bold colour, then appends "0" at (1, 15), the top labels and then the side labels |
| CoordinateGrid.Grid.Draw | src/js/grid.js:147-155 | builds `lines` only when absent and otherwise keeps them unchanged, even if the canvas was resized; appends the stroke of every cached line in order, then the labels; leaves the style of the last line with the label font and colour |
| CoordinateGrid.GridLineCount | src/js/grid.js:93-117 | the grid has ceil(width/step) + ceil(height/step) lines |
| CoordinateGrid.VerticalLineAt | src/js/grid.js:101-105 | line i < ceil(width/step) runs from (i·step, 0) to (i·step, height), with i·step < width, in the bold style exactly when i·step passes the bold test and in the thin style otherwise |
| CoordinateGrid.HorizontalLineAt | src/js/grid.js:112-116 | line ceil(width/step) + j runs from (0, j·step) to (width, j·step), with j·step < height, bold exactly when j·step passes the bold test |
| CoordinateGrid.EveryNthLineBold | src/js/grid.js:90-96 | with boldNth > 0, the k-th line of its group is bold (bold colour and bold width) exactly when k is a multiple of boldNth, and thin otherwise |
| CoordinateGrid.FirstLinesBold | src/js/grid.js:87-120 | on a non-empty canvas, the first vertical line and the first horizontal line are bold |
| CoordinateGrid.VerticalLinePositions | src/js/grid.js:93 | some vertical line starts at x exactly when 0 ≤ x < width and x is a multiple of step |
| CoordinateGrid.HorizontalLinePositions | src/js/grid.js:109 | some horizontal line starts at y exactly when 0 ≤ y < height and y is a multiple of step |
| CoordinateGrid.TopLabelsExactly | src/js/grid.js:134-137 | the label m is drawn at (m, 15) exactly when m is a positive multiple of step·boldNth below the width |
| CoordinateGrid.SideLabelsExactly | src/js/grid.js:140-143 | the label m is drawn at (0, m + 15) exactly when m is a positive multiple of step·boldNth below the height |
| CoordinateGrid.LabelsMarkBoldLines | src/js/grid.js:131-143 | every labelled value m is the coordinate of a bold line: vertical line m/step if m < width, horizontal line m/step if m < height |
| CoordinateGrid.ExampleGrid | src/js/grid.js:173 | Grid('gray', 0.25, 50, 2) on a 200 × 100 canvas has vertical lines at 0, 50, 100 and 150 (bold at 0 and 100), horizontal lines at 0 and 50 (bold at 0), and the labels "0" and "100" |
| CoordinateGrid.RelativeCoord | src/js/grid.js:20-21 | the pointer coordinate is the largest integer not above clientX − rect.left (respectively clientY − rect.top) |
| CoordinateGrid.OffsetX | src/js/grid.js:30 | in the left half the label starts 20 pixels right of the pointer; otherwise it ends 20 pixels left of it |
| CoordinateGrid.OffsetY | src/js/grid.js:31 | the label goes 25 pixels below the pointer in the top half and 18 pixels above it otherwise |
| CoordinateGrid.PositionTextInjective | src/js/grid.js:24 | the text "X: x, Y: y" determines x and y: different positions never show the same text |
| CoordinateGrid.Mouse.constructor | src/js/grid.js:9-13 | the position defaults to (0, 0) and the context is stored |
| CoordinateGrid.Mouse.SetPos | src/js/grid.js:16-34 | stores the floored position relative to the canvas's box, sets the font to 16px Monospace, and appends the position text at the pointer shifted by the two offsets |
| Shapes.Rectangle.Area | src/js/index.js:30-32 | the area is (right − left)·(bottom − top) |
| Shapes.Rectangle.Left | src/js/index.js:35-38 | the getter returns x (stated by its body); its ensures adds that the left edge lies before x + width exactly when the width is positive |
| Shapes.Rectangle.Right | src/js/index.js:41-44 | right − left equals the width |
| Shapes.Rectangle.Top | src/js/index.js:47-50 | the getter returns y (stated by its body); its ensures adds that the top edge lies above y + height exactly when the height is positive |
| Shapes.Rectangle.Bottom | src/js/index.js:53-55 | bottom − top equals the height |
| Shapes.DefaultRectangle | src/js/index.js:12-26 | a rectangle built with no arguments is at (0, 0) with size 0, empty colours and stroke width 2, so its area is 0 |
| Shapes.ChildSquares | src/js/index.js:157-171 | four 50 × 50 squares, red, green, blue and magenta: the first sits above the parent, the second to its right, the third below it, the fourth to its left; each is flush with that side and aligned with the parent's left or top edge |
| Shapes.ChildrenOutsideParent | src/js/index.js:157-171 | for a parent of non-negative size, no child square overlaps the parent's interior |
| GridSolution.CreateGrid | src/js/gridSolution.js:7-48 | appends the whole grid and leaves the context's style and saved-style stack as they were before the call |
| GridSolution.DrawVertical | src/js/gridSolution.js:23-32 | appends, for x = 0, 50, 100, … below the width, a stroke from (x, 0) to (x, height) followed by the label x at (x, 12) |
| GridSolution.DrawHorizontal | src/js/gridSolution.js:35-44 | appends, for y = 0, 50, … below the height, a stroke from (0, y) to (width, y) followed by the label y at (0, y) |
| GridSolution.VerticalCommandsAt | src/js/gridSolution.js:23-32 | the commands for the vertical lines come in pairs: the stroke at xs[i] is at position 2i and its label at 2i + 1 |
| GridSolution.HorizontalCommandsAt | src/js/gridSolution.js:35-44 | the commands for the horizontal lines come in pairs in the same way |
| GridSolution.CommandsLength | src/js/gridSolution.js:23-44 | each line contributes exactly two commands |
| GridSolution.GridCommandCount | src/js/gridSolution.js:9 | createGrid draws 2·(ceil(width/50) + ceil(height/50)) commands |
| GridSolution.VerticalLineAt | src/js/gridSolution.js:23-32 | command 2i is the gray, 0.35-wide stroke at x = 50i < width, and command 2i + 1 is the label x at (x, 12) in black 14px Monospace |
| GridSolution.HorizontalLineAt | src/js/gridSolution.js:35-44 | after all vertical pairs, the j-th pair is the stroke at y = 50j < height from (0, y) to (width, y), then the label y at (0, y) |

## Left out

- The page wiring is not modelled: `init`, `getElementById`, `getContext`, the `mousemove` listener and the load handler (`src/js/grid.js:158-194` and the corresponding code in `src/js/index.js`). A context of a given size is a parameter instead.
- Rendering is not modelled. `beginPath`, `moveTo`, `lineTo` and `stroke` become one logged `Stroke`, and pixels, anti-aliasing and clearing are not represented.
- `measureText` is not modelled. `CoordinateGrid.Mouse.SetPos` takes the measured text width as a natural-number parameter, so fractional text widths are not represented.
- `getBoundingClientRect` becomes the `rectLeft` and `rectTop` parameters of `CoordinateGrid.Mouse.SetPos`. Pointer event coordinates are reals, and `CoordinateGrid.RelativeCoord` floors the exact difference. JavaScript floors the double-rounded result of the subtraction (`src/js/grid.js:20-21`), which can be one more when the subtraction rounds up onto an integer. For example, `1 - 2**-60` evaluates to exactly 1. That rounding is not modelled.
- Style assignments always take effect in the model, and colours and widths are opaque values. A real 2D context ignores a `lineWidth` that is zero, negative or NaN, and a colour string it cannot parse, and keeps the previous value. So `new Grid('gray', 0)` strokes its thin lines in the previous width, where the model logs width 0. This affects `CoordinateGrid.Line.Draw`, `CoordinateGrid.Grid.Draw`, `CoordinateGrid.Grid.DrawText`, `CoordinateGrid.Mouse.SetPos` and `GridSolution.CreateGrid`.
- `save()` and `restore()` cover only the four style attributes the sources set: stroke style, fill style, font and line width. Transforms and clipping are not modelled.
- `Rectangle.draw` is not modelled. It only issues canvas calls with the rectangle's own fields. The other drawing examples (`drawExamples`, `src/js/index.js:104-286`) are not modelled either. They are fixed canvas calls with literal coordinates and no logic; their arcs use `Math.PI` angles, and one text placement is computed from a measured width. The `canvas-coords` helper library that `src/js/index.js` imports is not part of this model.
- Shapes.Rectangle: the `Number(...)` coercion of constructor arguments is not modelled. Coordinates and sizes are integers, so non-numeric or fractional arguments are not represented.
- CoordinateGrid.Grid.CreateLines: requires step > 0. For step ≤ 0 on a non-empty canvas the source's loops never end. The requires also excludes step ≤ 0 on a 0 × 0 canvas, where the source ends with `lines = []`; the model does not cover that case. Fractional steps are not represented.
- CoordinateGrid.Grid.DrawText: requires step·boldNth > 0. With step·boldNth < 0 the label loops never end, and with step·boldNth = 0 they never end on a non-empty canvas. The requires also excludes step·boldNth = 0 on a 0 × 0 canvas. There the source's loops (`src/js/grid.js:134`, `src/js/grid.js:140`) end at once and only "0" is drawn; the model does not cover that case.
- CoordinateGrid.Grid.Draw: requires step > 0 and boldNth > 0. On a non-empty canvas these are exactly the conditions under which its loops end. The requires also excludes some cases on a 0 × 0 canvas where the source ends, such as step ≤ 0 with step·boldNth ≥ 0, or boldNth = 0. There the source draws no lines and only the "0" label; the model does not cover those cases.
- Decimal.IntToString: covers integers only. JavaScript's exponent notation for very large magnitudes and the text of fractional values are not modelled.
