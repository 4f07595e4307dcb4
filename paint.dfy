// The colour a paint event gives a cell: normal or rainbow colour, darkening, clearing.
module PaintEngine {
  import opened Colors

  datatype Mode = Normal | Rainbow

  /** The module-level painting state `paint_cell` consults and updates. */
  datatype PaintState = PaintState(
    painting: bool,       // left button held
    clearing: bool,       // right button held
    darkening: bool,      // "darken" checkbox
    darkeningBg: bool,    // "darken background too" checkbox
    mode: Mode,
    paintColor: Color,    // the colour picker's value
    rainbowIndex: nat)

  /** The fixed rainbow sequence of `get_next_rainbow_color`. */
  const RainbowColors: seq<Color> :=
    [Keyword(Red), Keyword(Orange), Keyword(Yellow), Keyword(LightBlue), Keyword(Indigo), Keyword(Violet)]

  /** `incerement_number`: the next number, wrapping to `min` once it would pass `max`. */
  function Increment(num: int, max: int, min: int := 0): (r: int)
    ensures num < max ==> r == num + 1
    ensures num >= max ==> r == min
    ensures min <= num <= max ==> min <= r <= max
  {
    var number := num + 1;
    if number > max then min else number
  }

  /** `get_next_rainbow_color`: the colour at `index` and the index of the next colour,
      which counts modulo the length of the sequence. */
  function NextRainbowColor(index: nat): (r: (Color, nat))
    requires index < |RainbowColors|
    ensures r.0 == RainbowColors[index]
    ensures r.1 == (index + 1) % 6
  {
    (RainbowColors[index], Increment(index, |RainbowColors| - 1))
  }

  /** What one `paint_cell` call leaves behind: the cell's colour and the rainbow index. */
  datatype Painted = Painted(cell: Color, rainbowIndex: nat)

  /** Darkening takes over when it is switched on and either the background is to be
      darkened too or the cell's computed colour differs from the background. */
  predicate Darkens(st: PaintState, current: Color) {
    st.darkening && (st.darkeningBg || Computed(current) != Computed(Background))
  }

  /** `paint_cell` on a cell whose colour is `current`. */
  function Paint(st: PaintState, current: Color): (r: Painted)
    requires st.rainbowIndex < |RainbowColors|
    ensures r.rainbowIndex < |RainbowColors|
    // the rainbow index advances exactly once per painted cell, and only in rainbow mode
    ensures r.rainbowIndex ==
              if st.painting && st.mode == Rainbow then (st.rainbowIndex + 1) % 6
              else st.rainbowIndex
    // painting takes precedence over clearing
    ensures st.painting && Darkens(st, current) ==> r.cell == DarkerColor(current)
    ensures st.painting && !Darkens(st, current) && st.mode == Normal ==> r.cell == st.paintColor
    ensures st.painting && !Darkens(st, current) && st.mode == Rainbow ==> r.cell == RainbowColors[st.rainbowIndex]
    ensures !st.painting && st.clearing ==> r.cell == Background
    ensures !st.painting && !st.clearing ==> r.cell == current
  {
    if st.painting then
      var (color, index) :=
        if st.mode == Rainbow then NextRainbowColor(st.rainbowIndex) else (st.paintColor, st.rainbowIndex);
      var color := if st.darkening && (st.darkeningBg || Computed(current) != Computed(Background))
                   then DarkerColor(current) else color;
      Painted(color, index)
    else if st.clearing then Painted(Background, st.rainbowIndex)
    else Painted(current, st.rainbowIndex)
  }

  /** A drag over cells whose colours are `current`, in the order the pointer enters
      them: the colours they end up with and the state afterwards. */
  function Stroke(st: PaintState, current: seq<Color>): (r: (seq<Color>, PaintState))
    requires st.rainbowIndex < |RainbowColors|
    ensures |r.0| == |current|
    ensures r.1 == st.(rainbowIndex := r.1.rainbowIndex)
    ensures r.1.rainbowIndex < |RainbowColors|
    decreases |current|
  {
    if current == [] then ([], st)
    else
      var p := Paint(st, current[0]);
      var rest := Stroke(st.(rainbowIndex := p.rainbowIndex), current[1..]);
      ([p.cell] + rest.0, rest.1)
  }

  /** The rainbow colour `n` steps after the first, cyclically. */
  function RainbowAt(n: nat): Color {
    RainbowColors[n % 6]
  }

  lemma NextIndexShift(i: nat, k: nat)
    requires i < |RainbowColors|
    ensures RainbowAt((i + 1) % 6 + k) == RainbowAt(i + (k + 1))
    ensures ((i + 1) % 6 + k) % 6 == (i + (k + 1)) % 6
  {
  }

  /** Prefixing the colour at step `i` to the colours from step `i + 1` on gives the
      colours from step `i` on. */
  lemma ShiftedRainbow(i: nat, cells: seq<Color>)
    requires i < |RainbowColors| && cells != []
    requires cells[0] == RainbowAt(i)
    requires forall k :: 0 <= k < |cells| - 1 ==> cells[1..][k] == RainbowAt((i + 1) % 6 + k)
    ensures forall k :: 0 <= k < |cells| ==> cells[k] == RainbowAt(i + k)
  {
    forall k | 0 < k < |cells| ensures cells[k] == RainbowAt(i + k) {
      assert cells[k] == cells[1..][k - 1];
      NextIndexShift(i, k - 1);
    }
  }

  /** One rainbow paint without darkening: the colour at the index, and the index moves on. */
  lemma RainbowPaint(st: PaintState, current: Color)
    requires st.rainbowIndex < |RainbowColors|
    requires st.painting && st.mode == Rainbow && !st.darkening
    ensures Paint(st, current) == Painted(RainbowAt(st.rainbowIndex), (st.rainbowIndex + 1) % 6)
  {
  }

  /** Painting in rainbow mode without darkening gives the k-th entered cell the colour
      `k` steps after the current index, cyclically, and moves the index on by the
      number of cells. */
  lemma {:induction false} RainbowStroke(st: PaintState, current: seq<Color>)
    requires st.rainbowIndex < |RainbowColors|
    requires st.painting && st.mode == Rainbow && !st.darkening
    ensures forall k :: 0 <= k < |current| ==> Stroke(st, current).0[k] == RainbowAt(st.rainbowIndex + k)
    ensures Stroke(st, current).1.rainbowIndex == (st.rainbowIndex + |current|) % 6
    decreases |current|
  {
    if current != [] {
      var i := st.rainbowIndex;
      RainbowPaint(st, current[0]);
      var st' := st.(rainbowIndex := (i + 1) % 6);
      RainbowStroke(st', current[1..]);
      ShiftedRainbow(i, Stroke(st, current).0);
      NextIndexShift(i, |current| - 1);
    }
  }

  /** From the start index, seven painted cells are red, orange, yellow, light blue,
      indigo, violet and then red again. */
  lemma RainbowCycle(st: PaintState, current: seq<Color>)
    requires st.painting && st.mode == Rainbow && !st.darkening && st.rainbowIndex == 0
    requires |current| == 7
    ensures Stroke(st, current).0 ==
              [Keyword(Red), Keyword(Orange), Keyword(Yellow), Keyword(LightBlue),
               Keyword(Indigo), Keyword(Violet), Keyword(Red)]
    ensures Stroke(st, current).1.rainbowIndex == 1
  {
    RainbowStroke(st, current);
  }

  /** Painting in normal mode without darkening gives every entered cell the picker
      colour and leaves the rainbow index where it was. */
  lemma {:induction false} NormalStroke(st: PaintState, current: seq<Color>)
    requires st.rainbowIndex < |RainbowColors|
    requires st.painting && st.mode == Normal && !st.darkening
    ensures forall k :: 0 <= k < |current| ==> Stroke(st, current).0[k] == st.paintColor
    ensures Stroke(st, current).1 == st
    decreases |current|
  {
    if current != [] {
      NormalStroke(st, current[1..]);
    }
  }

  /** With only the right button held, every entered cell becomes the background; with
      no button held, nothing changes. */
  lemma {:induction false} ClearingAndIdleStrokes(st: PaintState, current: seq<Color>)
    requires st.rainbowIndex < |RainbowColors|
    requires !st.painting
    ensures st.clearing ==> forall k :: 0 <= k < |current| ==> Stroke(st, current).0[k] == Background
    ensures !st.clearing ==> Stroke(st, current).0 == current
    ensures Stroke(st, current).1 == st
    decreases |current|
  {
    if current != [] {
      ClearingAndIdleStrokes(st, current[1..]);
    }
  }
}
