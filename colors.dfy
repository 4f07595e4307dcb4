// CSS colours as the widget stores and compares them, and the darkening of a colour.
module Colors {

  /** The CSS colour keywords the widget writes into cells. `Transparent` is the
      background of a freshly created cell whose colour was never set. */
  datatype ColorName = Black | Red | Orange | Yellow | LightBlue | Indigo | Violet | Transparent

  /** An already-parsed `rgb(r,g,b)` value. */
  datatype RgbTriple = RgbTriple(r: real, g: real, b: real)

  /** A colour as written into a cell's style: a keyword or an rgb value. */
  datatype Color = Keyword(name: ColorName) | Rgb(channels: RgbTriple)

  const White := RgbTriple(255.0, 255.0, 255.0)

  /** The colour of an empty cell, `rgb(255, 255, 255)`. */
  const Background := Rgb(White)

  /** The channels the browser reports as the computed background of a cell holding `c`.
      For `transparent` it reports `rgba(0, 0, 0, 0)`, of which only the first three
      numbers are used. */
  function Computed(c: Color): RgbTriple {
    match c
    case Rgb(t) => t
    case Keyword(Black) => RgbTriple(0.0, 0.0, 0.0)
    case Keyword(Red) => RgbTriple(255.0, 0.0, 0.0)
    case Keyword(Orange) => RgbTriple(255.0, 165.0, 0.0)
    case Keyword(Yellow) => RgbTriple(255.0, 255.0, 0.0)
    case Keyword(LightBlue) => RgbTriple(173.0, 216.0, 230.0)
    case Keyword(Indigo) => RgbTriple(75.0, 0.0, 130.0)
    case Keyword(Violet) => RgbTriple(238.0, 130.0, 238.0)
    case Keyword(Transparent) => RgbTriple(0.0, 0.0, 0.0)
  }

  const MaxRgbValue: real := 255.0

  /** The percentage `get_darker_color` darkens by. */
  const DarkeningPercent: real := 10.0

  function Max(a: real, b: real): real {
    if a < b then b else a
  }

  /** One channel darkened by `percent` of the full channel range, never below zero. */
  function DarkenChannel(c: real, percent: real): (d: real)
    ensures d >= 0.0
    ensures d >= c - percent / 100.0 * MaxRgbValue
    ensures d == 0.0 || d == c - percent / 100.0 * MaxRgbValue
    ensures percent >= 0.0 && c >= 0.0 ==> d <= c
  {
    Max(c - percent / 100.0 * MaxRgbValue, 0.0)
  }

  /** `darken` applied channel by channel to a parsed colour. */
  function Darken(t: RgbTriple, percent: real): (r: RgbTriple)
    ensures r.r >= 0.0 && r.g >= 0.0 && r.b >= 0.0
    ensures percent >= 0.0 && t.r >= 0.0 ==> r.r <= t.r
    ensures percent >= 0.0 && t.g >= 0.0 ==> r.g <= t.g
    ensures percent >= 0.0 && t.b >= 0.0 ==> r.b <= t.b
  {
    RgbTriple(DarkenChannel(t.r, percent), DarkenChannel(t.g, percent), DarkenChannel(t.b, percent))
  }

  /** `get_darker_color`: the cell's computed colour darkened by 10%. */
  function DarkerColor(current: Color): (r: Color)
    ensures r.Rgb?
    ensures var t := Computed(current);
            r.channels == RgbTriple(Max(t.r - 25.5, 0.0), Max(t.g - 25.5, 0.0), Max(t.b - 25.5, 0.0))
  {
    Rgb(Darken(Computed(current), DarkeningPercent))
  }

  /** The worked example: rgb(200,100,50) darkens to rgb(174.5,74.5,24.5), and
      rgb(10,10,10) clamps to rgb(0,0,0). */
  lemma DarkenExamples()
    ensures DarkerColor(Rgb(RgbTriple(200.0, 100.0, 50.0))) == Rgb(RgbTriple(174.5, 74.5, 24.5))
    ensures DarkerColor(Rgb(RgbTriple(10.0, 10.0, 10.0))) == Rgb(RgbTriple(0.0, 0.0, 0.0))
  {
  }
}
