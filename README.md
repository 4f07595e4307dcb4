# Etch-A-Sketch canvas widget, modelled in Dafny

This project models the pixel-grid sketch pad of `scripts/canvas_widget.mjs`. The sketch pad is a
canvas element split into a grid of cells. The user paints the cells by holding a mouse button and
moving over them.

- **Resolution pipeline.** `change_resolution` first checks that the canvas is at least 100 × 100
  pixels: 1 pixel minimum cell size times the 100-cell maximum on each axis. It then checks that the
  requested width and height are integers in `[1, 100]`. Only if both checks pass does it build a
  new grid of `width × height` cells. Each cell is `canvas / resolution` pixels on each axis and
  starts in the background colour `rgb(255, 255, 255)`. The new grid replaces the canvas's children.
  A rejected request reports an error and leaves the existing cells as they were.
- **Paint engine.** `paint_cell` chooses a cell's new colour from:
  - the mouse-button flags (painting wins over clearing);
  - the mode: the picker colour in normal mode, or the next of six rainbow colours in rainbow mode,
    where a wrap-around index moves on once per painted cell;
  - the darkening options: when darkening applies, each channel of the cell's current colour drops
    by 10% of 255, and never below 0.

  `clear` resets every cell to the background colour.
- **Event handlers.** Mouse down/up, the colour picker, the mode radio buttons and the two darkening
  checkboxes update the widget's flags.

Layout: one module per component.

| file | module | contents |
|---|---|---|
| `results.dfy` | `Results` | the error reasons and a `Result` type in place of the `["ok", v]` / `["error", msg]` pairs |
| `colors.dfy` | `Colors` | colours, the browser's computed rgb value of a colour, and `darken` |
| `geometry.dfy` | `Geometry` | axis settings, minimum canvas size, cell count and cell size |
| `validation.dfy` | `Validation` | the canvas-size check, the resolution check, and both in pipeline order |
| `grid.dfy` | `Grid` | cells, `create_grid`, `set_canvas_background_color`, and the recolouring `clear` applies |
| `paint.dfy` | `PaintEngine` | `incerement_number`, the rainbow sequence, `paint_cell` as a function, and strokes of several cells |
| `widget.dfy` | `Widget` | the `SketchWidget` class: cells and flags as fields, one method per handler |

Modelling choices:
- Colours are CSS keywords or parsed `rgb(r,g,b)` triples. `Computed` gives the rgb value the
  browser reports for a colour, standing in for `getComputedStyle`.
- Channels and sizes are Dafny `real`s.
- A value read from a resolution input is either an integer or "not an integer". That covers NaN,
  fractions and infinities alike.
- The canvas size and the input values are parameters of `ChangeResolution`.
- Each handler method's `modifies` clause names only the fields that handler assigns. So the frame
  itself proves, for example, that switching mode never touches the rainbow index and that `Clear`
  touches nothing but the cells.

## Model

| member | source | states |
|---|---|---|
| `Colors.DarkenChannel` | scripts/canvas_widget.mjs:425-433 | a darkened channel is never negative, is either 0 or the channel minus `percent`% of 255, and is at most the original channel |
| `Colors.Darken` | scripts/canvas_widget.mjs:425-433 | darkening works channel by channel; every result channel lies in `[0, c]` for its original channel `c` |
| `Colors.DarkerColor` | scripts/canvas_widget.mjs:412-415 | `get_darker_color` maps each channel `c` of the cell's computed colour to `max(c - 25.5, 0)` |
| `Colors.DarkenExamples` | scripts/canvas_widget.mjs:425-433 | `rgb(200,100,50)` darkens to `rgb(174.5,74.5,24.5)`; `rgb(10,10,10)` clamps to `rgb(0,0,0)` |
| `Geometry.MinDim` | scripts/canvas_widget.mjs:229-231 | the minimum length, split into `maxAmount` equal cells, gives cells of exactly the minimum size |
| `Geometry.MinCanvasSize` | scripts/canvas_widget.mjs:215-219 | with both axes configured as `min_size` 1 and limits `[1, 100]` (lines 4-15), the minimum canvas is 100 × 100 |
| `Geometry.CellAmount` | scripts/canvas_widget.mjs:293-295 | a valid resolution has between 1 and 100·100 cells, and at least as many as either axis |
| `Geometry.CellSize` | scripts/canvas_widget.mjs:304-308 | cells of the computed size, `width` across and `height` down, fill the canvas exactly (no rounding) |
| `Validation.ValidateCanvasSize` | scripts/canvas_widget.mjs:202-206 | fails with "Invalid size" exactly when width < 100 or height < 100; otherwise returns the size unchanged |
| `Validation.ValidateResolution` | scripts/canvas_widget.mjs:261-268 | "Not an integer" if either axis is not an integer, before any range check; then width outside `[1,100]`, then height outside `[1,100]`; accepts exactly the in-range integer pairs and returns them unclamped |
| `Validation.ResolutionRequest` | scripts/canvas_widget.mjs:143-168 | the canvas check runs before the resolution check; an accepted request is a valid resolution whose cells are at least the 1-pixel minimum on both axes |
| `Validation.RequestMessages` | scripts/canvas_widget.mjs:202-206 | each refusal carries the widget's message for it (lines 204 and 262-266): "Invalid size", "Not an integer", "Resolution width not in range", "Resolution height not in range" |
| `Grid.Recolored` | scripts/canvas_widget.mjs:336-342 | recolouring keeps the number, order and size of the cells and gives every one the new colour |
| `Grid.RecoloredTwice` | scripts/canvas_widget.mjs:454-458 | recolouring twice equals recolouring once with the last colour; clearing is idempotent |
| `Grid.CreateGrid` | scripts/canvas_widget.mjs:317-328 | the loop produces `amount` cells (none for a non-positive amount), each of the given size with its background still unset |
| `Grid.SetCanvasBackgroundColor` | scripts/canvas_widget.mjs:336-342 | the copied grid is the input grid with every cell recoloured |
| `PaintEngine.Increment` | scripts/canvas_widget.mjs:444-448 | returns `num + 1` below `max` and `min` from `max` on; keeps a number of `[min, max]` inside `[min, max]` |
| `PaintEngine.NextRainbowColor` | scripts/canvas_widget.mjs:399-404 | returns the colour at the index and the next index, which is `(index + 1) mod 6` |
| `PaintEngine.Paint` | scripts/canvas_widget.mjs:374-391 | painting wins over clearing; darkening replaces the colour when it is on and (background darkening is on or the cell is not the background); otherwise the picker or rainbow colour; clearing alone gives the background; with no button nothing changes; the index advances by one mod 6 exactly when painting in rainbow mode |
| `PaintEngine.Stroke` | scripts/canvas_widget.mjs:359-365 | a drag over `n` cells gives `n` colours and changes nothing in the painting state but the rainbow index, which stays in `0..5` |
| `PaintEngine.RainbowPaint` | scripts/canvas_widget.mjs:378-381 | one rainbow paint without darkening gives the colour at the index and moves the index on by one mod 6 |
| `PaintEngine.RainbowStroke` | scripts/canvas_widget.mjs:378-381 | in rainbow mode the `k`-th painted cell gets the colour `k` steps on from the index, cyclically, and the index ends `n` steps on, mod 6 |
| `PaintEngine.RainbowCycle` | scripts/canvas_widget.mjs:399-404 | from index 0, seven painted cells are red, orange, yellow, lightblue, indigo, violet, red |
| `PaintEngine.NormalStroke` | scripts/canvas_widget.mjs:377-389 | in normal mode without darkening every painted cell gets the picker colour and the painting state, rainbow index included, is unchanged |
| `PaintEngine.ClearingAndIdleStrokes` | scripts/canvas_widget.mjs:374-391 | without the paint button, clearing turns every entered cell to the background; with neither flag set no cell and no state changes |
| `Widget.SketchWidget.constructor` | scripts/canvas_widget.mjs:24-36 | the initial flags, mode, picker colour and rainbow index; then the default 16 × 16 resolution is applied, leaving the widget with its own fresh cells that callers may paint and clear |
| `Widget.SketchWidget.ChangeResolution` | scripts/canvas_widget.mjs:143-181 | the returned error is that of the first failing check; on failure the cells are left exactly as they were; the inputs are marked invalid exactly when the resolution check fails, and are left alone when the canvas check fails; on success there are exactly `width × height` fresh cells, each `canvas/resolution` in size and in the background colour |
| `Widget.SketchWidget.PaintCell` | scripts/canvas_widget.mjs:374-391 | only the target cell's colour changes, to the colour `Paint` gives; the rainbow index becomes `Paint`'s next index |
| `Widget.SketchWidget.MouseDown` | scripts/canvas_widget.mjs:47-51 | button 0 sets painting, button 2 sets clearing; then the target cell is painted with the updated flags |
| `Widget.SketchWidget.MouseUp` | scripts/canvas_widget.mjs:52-55 | button 0 clears only the painting flag, button 2 only the clearing flag |
| `Widget.SketchWidget.PickColor` | scripts/canvas_widget.mjs:71-74 | the picker's value becomes the paint colour |
| `Widget.SketchWidget.ChooseNormalMode` | scripts/canvas_widget.mjs:77-81 | normal mode and an enabled picker; the rainbow index is not touched |
| `Widget.SketchWidget.ChooseRainbowMode` | scripts/canvas_widget.mjs:84-88 | rainbow mode and a disabled picker; the rainbow index is not touched |
| `Widget.SketchWidget.ToggleDarkening` | scripts/canvas_widget.mjs:91-95 | darkening flips; the background checkbox is disabled exactly when darkening is off |
| `Widget.SketchWidget.ToggleDarkeningBg` | scripts/canvas_widget.mjs:97-100 | background darkening flips |
| `Widget.SketchWidget.Clear` | scripts/canvas_widget.mjs:450-458 | every cell becomes the background colour and keeps its size; no other state changes |
| `Widget.ResizeScenario` | scripts/canvas_widget.mjs:143-181 | on a 600 × 600 canvas, 60 × 60 gives 3600 background cells of 10 × 10; `(0, 60)` is refused as width out of range and `(60.5, 60)` as not an integer, and the widget still holds that same array of 3600 cells |

## Left out

- DOM wiring is not modelled: `$`, `addEventListener`, `set_to_border_box`, and writing to or reading from the input fields (lines 45-132, 238-253). Values read from the inputs are parameters.
- `add_paint_features_to_canvas` (lines 359-365) only attaches a "mouseover" listener to each cell that calls `paint_cell`. The model has no separate hover method: `PaintCell` is that call.
- `get_true_node_size` (lines 190-194) reads `clientWidth` and an inline `style.borderWidth` string. The canvas size is a parameter instead. The model does not capture that an inline border such as "2px" makes `2 * borderWidth` NaN, which the size check would let through.
- `Number()` coercion of the input text is not modelled. Only its outcome, an integer or not, is.
- A "mousedown" whose target is the canvas element itself, not a cell, is not modelled: `MouseDown` takes a cell index.
- The browser does not deliver input events to a disabled checkbox or picker. The handler methods do not model that filtering.
- The initial `disabled` attributes and CSS classes of the inputs come from the page's HTML, which is not part of this model. The constructor assumes none are set.
- The canvas's initial children also come from that HTML. The constructor starts from no cells, so on a canvas too small for the first resolution it promises 0 cells. The program would instead keep whatever children the page gave the canvas.
- `darken` works here on an already-parsed rgb triple. The model does not capture how the regex `/\d{1,3}/g` parses a computed colour string, or how the browser formats a darkened colour. A fractional channel such as "229.5" would be split into two numbers by that regex.
- Colors.DarkerColor: states one darkening of the cell's current computed colour. In the browser only that first darkening is exactly `max(c − 25.5, 0)`. A later darkening of the same cell re-reads the stored colour through the computed style and the regex, so the model makes no claim about repeated darkening.
- Numbers are modelled as exact reals and integers. IEEE doubles, including rounding in cell sizes and channels, are not modelled.
- `change_resolution`'s `throw new Error("Invalid case")` branches cannot be reached once the result is a two-variant sum type.
- `scripts/sketch_widget.mjs`, `scripts/sketch_panel.mjs`, `scripts/toolbox.mjs` and `scripts/main.js` are not part of this model. They are other drafts and wiring: some depend on undefined helpers, and `get_random_int` uses `Math.random`.
