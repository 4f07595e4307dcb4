// Building a detached grid of cells and recolouring cells (`create_grid`,
// `set_canvas_background_color`, and the colour rule `clear` applies in place).
module Grid {
  import opened Colors
  import opened Geometry

  /** One cell of the canvas: its style size and its background colour. */
  datatype Cell = Cell(size: Size, color: Color)

  /** Every cell recoloured to `c`; sizes and order are kept. */
  function Recolored(s: seq<Cell>, c: Color): (r: seq<Cell>)
    ensures |r| == |s|
    ensures forall k :: 0 <= k < |s| ==> r[k] == s[k].(color := c)
  {
    if s == [] then [] else [s[0].(color := c)] + Recolored(s[1..], c)
  }

  /** Recolouring twice keeps only the second colour; with one colour, recolouring
      is idempotent (clearing twice equals clearing once). */
  lemma RecoloredTwice(s: seq<Cell>, c1: Color, c2: Color)
    ensures Recolored(Recolored(s, c1), c2) == Recolored(s, c2)
    ensures Recolored(Recolored(s, c2), c2) == Recolored(s, c2)
  {
  }

  /** `create_grid`: `amount` fresh cells of the given size, appended one by one; their
      background is still unset. A non-positive amount runs the loop zero times. */
  method CreateGrid(amount: int, size: Size) returns (grid: seq<Cell>)
    ensures |grid| == (if amount > 0 then amount else 0)
    ensures forall k :: 0 <= k < |grid| ==> grid[k] == Cell(size, Keyword(Transparent))
  {
    grid := [];
    var i := 0;
    while i < amount
      invariant 0 <= i
      invariant i == 0 || i <= amount
      invariant |grid| == i
      invariant forall k :: 0 <= k < i ==> grid[k] == Cell(size, Keyword(Transparent))
    {
      grid := grid + [Cell(size, Keyword(Transparent))];
      i := i + 1;
    }
  }

  /** `set_canvas_background_color`: a copy of the grid with every cell set to `color`. */
  method SetCanvasBackgroundColor(grid: seq<Cell>, color: Color) returns (colored: seq<Cell>)
    ensures colored == Recolored(grid, color)
  {
    colored := [];
    var i := 0;
    while i < |grid|
      invariant i <= |grid|
      invariant |colored| == i
      invariant forall k :: 0 <= k < i ==> colored[k] == grid[k].(color := color)
    {
      colored := colored + [grid[i].(color := color)];
      i := i + 1;
    }
  }
}
