// The sketch pad itself: the canvas's cells and the flags its event handlers update.
module Widget {
  import opened Results
  import opened Colors
  import opened Geometry
  import opened Validation
  import opened Grid
  import opened PaintEngine

  class SketchWidget {
    /** The canvas's cell children, in document order. */
    var cells: array<Cell>
    var paintColor: Color
    var isPainting: bool
    var isClearing: bool
    var isDarkening: bool
    var isDarkeningBg: bool
    var paintMode: Mode
    var rainbowIndex: nat
    /** The `disabled` attributes of the colour picker and the darken-background checkbox. */
    var pickerDisabled: bool
    var darkeningBgCheckDisabled: bool
    /** Whether the resolution inputs carry the "invalid-input" class. */
    var inputsMarkedInvalid: bool

    ghost predicate Valid()
      reads this
    {
      rainbowIndex < |RainbowColors|
    }

    /** The painting state as `paint_cell` sees it. */
    function State(): PaintState
      reads this
    {
      PaintState(isPainting, isClearing, isDarkening, isDarkeningBg, paintMode, paintColor, rainbowIndex)
    }

    /** Start the widget: the module-level initial values, the default resolution
        written into the inputs, and a first `change_resolution` on that. */
    constructor (canvasSize: Size)
      ensures Valid() && fresh(cells)
      ensures State() == PaintState(false, false, false, false, Normal, Keyword(Black), 0)
      ensures !pickerDisabled && !darkeningBgCheckDisabled && !inputsMarkedInvalid
      ensures var req := ResolutionRequest(canvasSize, Int(WidthSetting.default), Int(HeightSetting.default));
              if req.Ok? then
                cells.Length == CellAmount(req.value) &&
                forall k :: 0 <= k < cells.Length ==> cells[k] == Cell(CellSize(req.value, canvasSize), Background)
              else cells.Length == 0
    {
      cells := new Cell[0];
      paintColor := Keyword(Black);
      isPainting, isClearing, isDarkening, isDarkeningBg := false, false, false, false;
      paintMode := Normal;
      rainbowIndex := 0;
      pickerDisabled, darkeningBgCheckDisabled, inputsMarkedInvalid := false, false, false;
      new;
      var _ := ChangeResolution(canvasSize, Int(WidthSetting.default), Int(HeightSetting.default));
    }

    /** `change_resolution`, with the measured canvas size and the two numbers read from
        the resolution inputs as parameters. A rejected request leaves the cells exactly
        as they were; an accepted one replaces them with a fresh grid of background cells
        that fill the canvas. */
    method ChangeResolution(canvasSize: Size, width: RawNumber, height: RawNumber) returns (r: Result<()>)
      requires Valid()
      modifies this`cells, this`inputsMarkedInvalid
      ensures Valid()
      ensures r.Err? <==> ResolutionRequest(canvasSize, width, height).Err?
      ensures r.Err? ==> r.error == ResolutionRequest(canvasSize, width, height).error
      ensures r.Err? ==> cells == old(cells)
      ensures inputsMarkedInvalid ==
                if ValidateCanvasSize(canvasSize).Err? then old(inputsMarkedInvalid)
                else ValidateResolution(width, height).Err?
      ensures r.Ok? ==>
                var res := ResolutionRequest(canvasSize, width, height).value;
                fresh(cells) &&
                cells.Length == res.width * res.height &&
                forall k :: 0 <= k < cells.Length ==> cells[k] == Cell(CellSize(res, canvasSize), Background)
    {
      var sizeCheck := ValidateCanvasSize(canvasSize);
      if sizeCheck.Err? {
        return Err(sizeCheck.error);
      }
      var resCheck := ValidateResolution(width, height);
      if resCheck.Err? {
        inputsMarkedInvalid := true;
        return Err(resCheck.error);
      }
      inputsMarkedInvalid := false;
      var res := resCheck.value;
      var amount := CellAmount(res);
      var size := CellSize(res, canvasSize);
      var grid := CreateGrid(amount, size);
      var colored := SetCanvasBackgroundColor(grid, Background);
      // set_resolution: the canvas's children are replaced by the new ones
      cells := new Cell[|colored|](k requires 0 <= k < |colored| => colored[k]);
      r := Ok(());
    }

    /** `paint_cell` on the cell at `target`. */
    method PaintCell(target: nat)
      requires Valid() && target < cells.Length
      modifies cells, this`rainbowIndex
      ensures Valid()
      ensures var p := Paint(old(State()), old(cells[target].color));
              cells[..] == old(cells[..])[target := old(cells[target]).(color := p.cell)] &&
              rainbowIndex == p.rainbowIndex
    {
      var p := Paint(State(), cells[target].color);
      cells[target] := cells[target].(color := p.cell);
      rainbowIndex := p.rainbowIndex;
    }

    /** The canvas's "mousedown" handler: button 0 starts painting, button 2 starts
        clearing, and the cell under the pointer is painted either way. */
    method MouseDown(button: int, target: nat)
      requires Valid() && target < cells.Length
      modifies cells, this`isPainting, this`isClearing, this`rainbowIndex
      ensures Valid()
      ensures isPainting == (old(isPainting) || button == 0)
      ensures isClearing == (old(isClearing) || button == 2)
      ensures var p := Paint(old(State()).(painting := isPainting, clearing := isClearing), old(cells[target].color));
              cells[..] == old(cells[..])[target := old(cells[target]).(color := p.cell)] &&
              rainbowIndex == p.rainbowIndex
    {
      if button == 0 {
        isPainting := true;
      } else if button == 2 {
        isClearing := true;
      }
      PaintCell(target);
    }

    /** The canvas's "mouseup" handler: each button ends only its own gesture. */
    method MouseUp(button: int)
      modifies this`isPainting, this`isClearing
      ensures isPainting == (old(isPainting) && button != 0)
      ensures isClearing == (old(isClearing) && button != 2)
    {
      if button == 0 {
        isPainting := false;
      } else if button == 2 {
        isClearing := false;
      }
    }

    /** The colour picker's "input" handler. */
    method PickColor(color: Color)
      modifies this`paintColor
      ensures paintColor == color
    {
      paintColor := color;
    }

    /** The "normal" mode radio button: re-enables the picker; the rainbow index is kept. */
    method ChooseNormalMode()
      modifies this`paintMode, this`pickerDisabled
      ensures paintMode == Normal && !pickerDisabled
    {
      pickerDisabled := false;
      paintMode := Normal;
    }

    /** The "rainbow" mode radio button: disables the picker; the rainbow index is kept. */
    method ChooseRainbowMode()
      modifies this`paintMode, this`pickerDisabled
      ensures paintMode == Rainbow && pickerDisabled
    {
      pickerDisabled := true;
      paintMode := Rainbow;
    }

    /** The "darken" checkbox: flips darkening and enables the background checkbox
        exactly while darkening is on. */
    method ToggleDarkening()
      modifies this`isDarkening, this`darkeningBgCheckDisabled
      ensures isDarkening == !old(isDarkening)
      ensures darkeningBgCheckDisabled == !isDarkening
    {
      isDarkening := !isDarkening;
      darkeningBgCheckDisabled := !isDarkening;
    }

    /** The "darken background too" checkbox. */
    method ToggleDarkeningBg()
      modifies this`isDarkeningBg
      ensures isDarkeningBg == !old(isDarkeningBg)
    {
      isDarkeningBg := !isDarkeningBg;
    }

    /** `clear`: every cell gets the background colour, in place; nothing else changes. */
    method Clear()
      modifies cells
      ensures cells[..] == Recolored(old(cells[..]), Background)
    {
      var i := 0;
      while i < cells.Length
        invariant i <= cells.Length
        invariant forall k :: 0 <= k < i ==> cells[k] == old(cells[k]).(color := Background)
        invariant forall k :: i <= k < cells.Length ==> cells[k] == old(cells[k])
      {
        cells[i] := cells[i].(color := Background);
        i := i + 1;
      }
    }
  }

  /** A 600 x 600 canvas at 60 x 60 gets 3600 background cells of 10 x 10 pixels;
      requesting (0, 60) or (60.5, 60) afterwards is refused and leaves those very
      cells in place. */
  method ResizeScenario() returns (w: SketchWidget, grid: array<Cell>,
                                   first: Result<()>, zeroWidth: Result<()>, fractional: Result<()>)
    ensures first.Ok?
    ensures grid.Length == 3600
    ensures forall k :: 0 <= k < grid.Length ==> grid[k] == Cell(Size(10.0, 10.0), Background)
    ensures zeroWidth == Err(WidthNotInRange) && fractional == Err(NotAnInteger)
    ensures w.cells == grid
  {
    var canvas := Size(600.0, 600.0);
    w := new SketchWidget(canvas);
    first := w.ChangeResolution(canvas, Int(60), Int(60));
    grid := w.cells;
    zeroWidth := w.ChangeResolution(canvas, Int(0), Int(60));
    fractional := w.ChangeResolution(canvas, NonInt, Int(60));
  }
}
