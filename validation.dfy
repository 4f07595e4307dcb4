// The two checks `change_resolution` runs before it rebuilds the grid.
module Validation {
  import opened Results
  import opened Geometry

  /** What `Number(field.value)` yields for a resolution input: an integer, or anything
      else (NaN, a fraction, an infinity). */
  datatype RawNumber = Int(n: int) | NonInt

  /** `validate_canvas_size`: the canvas must be at least the minimum size on both axes;
      it is returned unchanged otherwise. */
  function ValidateCanvasSize(size: Size): (r: Result<Size>)
    ensures r.Err? <==> size.width < 100.0 || size.height < 100.0
    ensures r.Err? ==> r.error == InvalidSize
    ensures r.Ok? ==> r.value == size
  {
    var min := MinCanvasSize();
    if size.width < min.width || size.height < min.height then Err(InvalidSize) else Ok(size)
  }

  /** `validate_resolution`: the integer check comes first on both axes, then the width
      range, then the height range; an accepted pair is returned as it is, never clamped. */
  function ValidateResolution(width: RawNumber, height: RawNumber): (r: Result<Resolution>)
    ensures width.NonInt? || height.NonInt? ==> r == Err(NotAnInteger)
    ensures width.Int? && height.Int? && !(1 <= width.n <= 100) ==> r == Err(WidthNotInRange)
    ensures width.Int? && height.Int? && 1 <= width.n <= 100 && !(1 <= height.n <= 100) ==> r == Err(HeightNotInRange)
    ensures r.Ok? <==> width.Int? && height.Int? && 1 <= width.n <= 100 && 1 <= height.n <= 100
    ensures r.Ok? ==> r.value == Resolution(width.n, height.n) && IsValid(r.value)
  {
    if width.NonInt? || height.NonInt? then Err(NotAnInteger)
    else if width.n < WidthSetting.lower || width.n > WidthSetting.upper then Err(WidthNotInRange)
    else if height.n < HeightSetting.lower || height.n > HeightSetting.upper then Err(HeightNotInRange)
    else Ok(Resolution(width.n, height.n))
  }

  /** The verdict of both checks in the order `change_resolution` runs them: the canvas
      size first, the requested resolution second. An accepted request yields cells
      no smaller than the configured minimum cell size. */
  function ResolutionRequest(canvas: Size, width: RawNumber, height: RawNumber): (r: Result<Resolution>)
    ensures ValidateCanvasSize(canvas).Err? ==> r == Err(InvalidSize)
    ensures ValidateCanvasSize(canvas).Ok? ==> r == ValidateResolution(width, height)
    ensures r.Ok? ==> IsValid(r.value)
    ensures r.Ok? ==> CellSize(r.value, canvas).width >= WidthSetting.minSize
    ensures r.Ok? ==> CellSize(r.value, canvas).height >= HeightSetting.minSize
  {
    match ValidateCanvasSize(canvas)
    case Err(e) => Err(e)
    case Ok(_) =>
      var r := ValidateResolution(width, height);
      if r.Ok? then
        QuotientAtLeast(canvas.width, r.value.width, WidthSetting.minSize, WidthSetting.upper);
        QuotientAtLeast(canvas.height, r.value.height, HeightSetting.minSize, HeightSetting.upper);
        r
      else r
  }

  /** A length of at least `upper` cells of `min` pixels, split into `n <= upper` parts,
      gives parts of at least `min` pixels. */
  lemma QuotientAtLeast(len: real, n: int, min: real, upper: int)
    requires 0 < n <= upper && min >= 0.0
    requires len >= min * upper as real
    ensures len / n as real >= min
  {
  }

  /** A refused request carries the message the widget reports for it. */
  lemma RequestMessages(canvas: Size, width: RawNumber, height: RawNumber)
    ensures canvas.width < 100.0 || canvas.height < 100.0 ==>
              Message(ResolutionRequest(canvas, width, height).error) == "Invalid size"
    ensures ValidateCanvasSize(canvas).Ok? && (width.NonInt? || height.NonInt?) ==>
              Message(ResolutionRequest(canvas, width, height).error) == "Not an integer"
    ensures ValidateCanvasSize(canvas).Ok? && width.Int? && height.Int? && !(1 <= width.n <= 100) ==>
              Message(ResolutionRequest(canvas, width, height).error) == "Resolution width not in range"
    ensures ValidateCanvasSize(canvas).Ok? && width.Int? && height.Int? && 1 <= width.n <= 100 &&
            !(1 <= height.n <= 100) ==>
              Message(ResolutionRequest(canvas, width, height).error) == "Resolution height not in range"
  {
  }
}
