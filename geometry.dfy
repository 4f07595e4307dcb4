// Resolution settings and the cell geometry derived from canvas size and resolution.
module Geometry {

  /** A width and a height in layout pixels (canvas or cell). */
  datatype Size = Size(width: real, height: real)

  /** A grid resolution, in cells per axis. */
  datatype Resolution = Resolution(width: int, height: int)

  /** The per-axis configuration: inclusive limits, the smallest cell size in pixels,
      and the default resolution. */
  datatype Setting = Setting(lower: int, upper: int, minSize: real, default: int)

  const WidthSetting := Setting(1, 100, 1.0, 16)
  const HeightSetting := Setting(1, 100, 1.0, 16)

  predicate InRange(v: int, s: Setting) {
    s.lower <= v <= s.upper
  }

  predicate IsValid(res: Resolution) {
    InRange(res.width, WidthSetting) && InRange(res.height, HeightSetting)
  }

  /** `calc_min_dim`: the smallest length that holds `maxAmount` cells of `minValue` pixels;
      split into `maxAmount` equal parts it gives back exactly `minValue`. */
  function MinDim(minValue: real, maxAmount: int): (r: real)
    ensures maxAmount > 0 ==> r / (maxAmount as real) == minValue
    ensures minValue >= 0.0 && maxAmount >= 0 ==> r >= 0.0
  {
    minValue * maxAmount as real
  }

  /** `calc_min_canvas_size`: the canvas must hold the largest resolution at the
      smallest cell size, 1 px times 100 cells on both axes. */
  function MinCanvasSize(): (r: Size)
    ensures r == Size(100.0, 100.0)
  {
    Size(MinDim(WidthSetting.minSize, WidthSetting.upper), MinDim(HeightSetting.minSize, HeightSetting.upper))
  }

  /** `calc_cell_amount`: one cell per column and row. */
  function CellAmount(res: Resolution): (n: int)
    ensures IsValid(res) ==> 1 <= n <= WidthSetting.upper * HeightSetting.upper
    ensures IsValid(res) ==> n >= res.width && n >= res.height
  {
    res.width * res.height
  }

  /** `calc_cell_size`: cells of the returned size, `res.width` across and `res.height`
      down, fill the canvas exactly; no rounding. */
  function CellSize(res: Resolution, canvas: Size): (s: Size)
    requires res.width > 0 && res.height > 0
    ensures s.width * (res.width as real) == canvas.width
    ensures s.height * (res.height as real) == canvas.height
  {
    Size(canvas.width / res.width as real, canvas.height / res.height as real)
  }
}
