/**
 * The watermark layer of the photo editor: its four parameters, set by
 * `reload`, and the tiling in `draw(_:)`, which repeats the watermark text
 * over a square band around the view (later turned by 45 degrees), one row
 * after another, every other row shifted left by half a step so that the
 * rows interlock like bricks.
 */
module Watermark {
  import opened Graphics

  /** The fixed gap added to the measured text size, in both directions, between tiles. */
  const Gutter: real := 20.0

  /** The attributes every tile is drawn with. */
  datatype TextAttributes = TextAttributes(foregroundColor: Color, fontSize: real)

  /** One `draw(at:withAttributes:)` call: the text, the tile's origin and the attributes. */
  datatype TextDraw = TextDraw(text: string, at: Point, attributes: TextAttributes)

  /** The horizontal distance between tiles in a row. */
  function StepX(textSize: Size): real
  {
    textSize.width + Gutter
  }

  /** The vertical distance between rows. */
  function StepY(textSize: Size): real
  {
    textSize.height + Gutter
  }

  /** Text measurement never gives a negative size, so both steps are at least the gutter. */
  lemma StepsAtLeastGutter(textSize: Size)
    requires textSize.width >= 0.0 && textSize.height >= 0.0
    ensures StepX(textSize) >= Gutter && StepY(textSize) >= Gutter
  {
  }

  /**
   * `start` after `n` additions of `step`: the value a loop variable that
   * starts at `start` and grows by `step` has on its `n`-th iteration.
   */
  function Advance(start: real, step: real, n: nat): real
  {
    if n == 0 then start else Advance(start, step, n - 1) + step
  }

  /** `n` additions of `step` add `n * step`. */
  lemma {:induction false} AdvanceIsMultiple(start: real, step: real, n: nat)
    ensures Advance(start, step, n) == start + n as real * step
  {
    if n > 0 {
      AdvanceIsMultiple(start, step, n - 1);
      assert (n - 1) as real * step + step == n as real * step;
    }
  }

  /** Starting one step later is being one step ahead. */
  lemma {:induction false} AdvanceShift(start: real, step: real, n: nat)
    ensures Advance(start + step, step, n) == Advance(start, step, n + 1)
  {
    if n > 0 {
      AdvanceShift(start, step, n - 1);
    }
  }

  /** With a positive step, later values are larger. */
  lemma {:induction false} AdvanceIncreases(start: real, step: real, i: nat, j: nat)
    requires step > 0.0
    requires i < j
    ensures Advance(start, step, i) < Advance(start, step, j)
  {
    if i < j - 1 {
      AdvanceIncreases(start, step, i, j - 1);
    }
  }

  /** With a positive step, no value is below the start. */
  lemma AdvanceAtLeastStart(start: real, step: real, n: nat)
    requires step > 0.0
    ensures start <= Advance(start, step, n)
  {
    if n > 0 {
      AdvanceIncreases(start, step, 0, n);
    }
  }

  /**
   * How many of `start`, `start + step`, `start + 2 * step`, ... lie below
   * `limit`: the number of iterations of a loop that starts a variable at
   * `start`, runs while it is below `limit` and adds `step` each time. The
   * count is the first `n` whose value reaches `limit`.
   */
  function CountBelow(start: real, limit: real, step: real): (n: nat)
    requires step >= 1.0
    ensures Advance(start, step, n) >= limit
    ensures n > 0 ==> Advance(start, step, n - 1) < limit
    decreases if start < limit then (limit - start).Floor + 1 else 0
  {
    if start < limit then
      var m := CountBelow(start + step, limit, step);
      AdvanceShift(start, step, m);
      if m > 0 then AdvanceShift(start, step, m - 1); m + 1 else m + 1
    else 0
  }

  /** The `k`-th value lies below `limit` exactly when `k` is less than the count. */
  lemma CountBelowIsLeast(start: real, limit: real, step: real, k: nat)
    requires step >= 1.0
    ensures Advance(start, step, k) < limit <==> k < CountBelow(start, limit, step)
  {
    var n := CountBelow(start, limit, step);
    if k + 1 < n {
      AdvanceIncreases(start, step, k, n - 1);
    } else if k > n {
      AdvanceIncreases(start, step, n, k);
    }
  }

  /**
   * Every value in `[start, limit)` falls in the cell between the `j`-th
   * and the `j + 1`-th value, for one of the counted `j`.
   */
  lemma {:induction false} CountBelowCovers(start: real, limit: real, step: real, v: real) returns (j: nat)
    requires step >= 1.0
    requires start <= v < limit
    ensures j < CountBelow(start, limit, step)
    ensures Advance(start, step, j) <= v < Advance(start, step, j + 1)
    decreases if start < limit then (limit - start).Floor + 1 else 0
  {
    if v < start + step {
      j := 0;
    } else {
      var i := CountBelowCovers(start + step, limit, step, v);
      AdvanceShift(start, step, i);
      AdvanceShift(start, step, i + 1);
      j := i + 1;
    }
  }

  /** Points ordered as they are drawn: by row, then from left to right. */
  predicate DrawnBefore(p: Point, q: Point)
  {
    p.y < q.y || (p.y == q.y && p.x < q.x)
  }

  /**
   * The tiling of one `draw(_:)` call: `w` is the diagonal of the view's
   * rectangle and the steps come from the measured text size.
   */
  datatype Tiling = Tiling(w: real, stepX: real, stepY: real) {

    predicate ValidSteps()
    {
      stepX >= Gutter && stepY >= Gutter
    }

    /** Row `k` is drawn at this `y`. */
    function RowY(k: nat): real
    {
      Advance(-w, stepY, k)
    }

    /** The first `x` of row `k`: odd rows start half a step further left. */
    function RowStart(k: nat): real
    {
      if k % 2 == 1 then -2.0 * w - stepX / 2.0 else -2.0 * w
    }

    /** The number of rows: those whose `y` is below `2 * w`. */
    function RowCount(): nat
      requires ValidSteps()
    {
      CountBelow(-w, 2.0 * w, stepY)
    }

    /** The number of tiles in row `k`: those whose `x` is below `w`. */
    function ColumnCount(k: nat): nat
      requires ValidSteps()
    {
      CountBelow(RowStart(k), w, stepX)
    }

    /** The origins of the tiles of row `k`, from left to right. */
    function Row(k: nat): seq<Point>
      requires ValidSteps()
    {
      seq(ColumnCount(k), j requires 0 <= j < ColumnCount(k) => Point(Advance(RowStart(k), stepX, j), RowY(k)))
    }

    /** The origins of the tiles of the first `n` rows, in drawing order. */
    function RowsUpTo(n: nat): seq<Point>
      requires ValidSteps()
    {
      if n == 0 then [] else RowsUpTo(n - 1) + Row(n - 1)
    }

    /** The origins of all tiles, in drawing order. */
    function Origins(): seq<Point>
      requires ValidSteps()
    {
      RowsUpTo(RowCount())
    }
  }

  /** Row `k` is drawn at `y == -w + k * stepY`. */
  lemma RowYIsMultiple(t: Tiling, k: nat)
    ensures t.RowY(k) == -t.w + k as real * t.stepY
  {
    AdvanceIsMultiple(-t.w, t.stepY, k);
  }

  /** Row `k` is drawn exactly when its `y` is below `2 * w`: the row count is the least `k` whose `y` reaches `2 * w`. */
  lemma RowCountIsLeast(t: Tiling, k: nat)
    requires t.ValidSteps()
    ensures t.RowY(k) < 2.0 * t.w <==> k < t.RowCount()
  {
    CountBelowIsLeast(-t.w, 2.0 * t.w, t.stepY, k);
  }

  /** Tile `j` of row `k` is drawn exactly when its `x` is below `w`. */
  lemma ColumnCountIsLeast(t: Tiling, k: nat, j: nat)
    requires t.ValidSteps()
    ensures Advance(t.RowStart(k), t.stepX, j) < t.w <==> j < t.ColumnCount(k)
  {
    CountBelowIsLeast(t.RowStart(k), t.w, t.stepX, j);
  }

  /** Row 0 starts at `-2 * w`; row `k` starts half a step further left exactly when `k` is odd. */
  lemma RowsAlternate(t: Tiling, k: nat)
    requires t.ValidSteps()
    ensures t.RowStart(0) == -2.0 * t.w
    ensures t.RowStart(k) == -2.0 * t.w - t.stepX / 2.0 <==> k % 2 == 1
    ensures t.RowStart(k + 1) - t.RowStart(k) == if k % 2 == 1 then t.stepX / 2.0 else -t.stepX / 2.0
  {
  }

  /** Within a row, tiles are one horizontal step apart at the row's `y`, starting at the row's start. */
  lemma RowIsEvenlySpaced(t: Tiling, k: nat, j: nat)
    requires t.ValidSteps()
    requires j < |t.Row(k)|
    ensures t.Row(k)[0].x == t.RowStart(k)
    ensures t.Row(k)[j].y == t.RowY(k)
    ensures j + 1 < |t.Row(k)| ==> t.Row(k)[j + 1].x == t.Row(k)[j].x + t.stepX
  {
  }

  /** A band point: `-w <= y < 2 * w` and `-2 * w - stepX / 2 <= x < w`. */
  predicate InBand(t: Tiling, p: Point)
  {
    -t.w <= p.y < 2.0 * t.w && -2.0 * t.w - t.stepX / 2.0 <= p.x < t.w
  }

  /** Every tile of a drawn row lies in the band the loops scan. */
  lemma RowInBounds(t: Tiling, k: nat)
    requires t.ValidSteps()
    requires k < t.RowCount()
    ensures forall j :: 0 <= j < |t.Row(k)| ==> InBand(t, t.Row(k)[j])
  {
    RowCountIsLeast(t, k);
    AdvanceAtLeastStart(-t.w, t.stepY, k);
    forall j | 0 <= j < |t.Row(k)|
      ensures InBand(t, t.Row(k)[j])
    {
      ColumnCountIsLeast(t, k, j);
      AdvanceAtLeastStart(t.RowStart(k), t.stepX, j);
    }
  }

  /** Every tile of the first `n` drawn rows lies in the band the loops scan. */
  lemma {:induction false} RowsUpToInBounds(t: Tiling, n: nat)
    requires t.ValidSteps()
    requires n <= t.RowCount()
    ensures forall i :: 0 <= i < |t.RowsUpTo(n)| ==> InBand(t, t.RowsUpTo(n)[i])
  {
    if n > 0 {
      RowsUpToInBounds(t, n - 1);
      RowInBounds(t, n - 1);
    }
  }

  /** Every tile origin satisfies `-w <= y < 2 * w` and `-2 * w - stepX / 2 <= x < w`. */
  lemma TilesInBounds(t: Tiling)
    requires t.ValidSteps()
    ensures forall p :: p in t.Origins() ==> InBand(t, p)
  {
    RowsUpToInBounds(t, t.RowCount());
  }

  /** Every tile of the first `n` rows lies above row `n`. */
  lemma {:induction false} RowsUpToAbove(t: Tiling, n: nat)
    requires t.ValidSteps()
    ensures forall i :: 0 <= i < |t.RowsUpTo(n)| ==> t.RowsUpTo(n)[i].y < t.RowY(n)
  {
    if n > 0 {
      RowsUpToAbove(t, n - 1);
    }
  }

  /** Within a row, tiles are drawn from left to right. */
  lemma RowInDrawingOrder(t: Tiling, k: nat)
    requires t.ValidSteps()
    ensures forall i, j :: 0 <= i < j < |t.Row(k)| ==> DrawnBefore(t.Row(k)[i], t.Row(k)[j])
  {
    forall i, j | 0 <= i < j < |t.Row(k)|
      ensures DrawnBefore(t.Row(k)[i], t.Row(k)[j])
    {
      AdvanceIncreases(t.RowStart(k), t.stepX, i, j);
    }
  }

  /** Tiles are drawn row by row, top to bottom, and from left to right within a row, never twice at one origin. */
  lemma {:induction false} RowsUpToInDrawingOrder(t: Tiling, n: nat)
    requires t.ValidSteps()
    ensures forall i, j :: 0 <= i < j < |t.RowsUpTo(n)| ==> DrawnBefore(t.RowsUpTo(n)[i], t.RowsUpTo(n)[j])
  {
    if n > 0 {
      var before, row := t.RowsUpTo(n - 1), t.Row(n - 1);
      RowsUpToInDrawingOrder(t, n - 1);
      RowsUpToAbove(t, n - 1);
      RowInDrawingOrder(t, n - 1);
      forall i, j | 0 <= i < j < |before + row|
        ensures DrawnBefore((before + row)[i], (before + row)[j])
      {
        if j < |before| {
          assert (before + row)[i] == before[i] && (before + row)[j] == before[j];
        } else if i < |before| {
          assert (before + row)[i] == before[i] && (before + row)[j] == row[j - |before|];
        } else {
          assert (before + row)[i] == row[i - |before|] && (before + row)[j] == row[j - |before|];
        }
      }
    }
  }

  /** All tile origins are in drawing order: strictly increasing by row, then by `x`. */
  lemma TilesInDrawingOrder(t: Tiling)
    requires t.ValidSteps()
    ensures forall i, j :: 0 <= i < j < |t.Origins()| ==> DrawnBefore(t.Origins()[i], t.Origins()[j])
  {
    RowsUpToInDrawingOrder(t, t.RowCount());
  }

  /**
   * The tiles leave no gap: every point of the band `-2 * w <= x < w`,
   * `-w <= y < 2 * w` lies in the step-sized cell of tile `j` of row `k`.
   */
  lemma TilesCoverBand(t: Tiling, x: real, y: real) returns (k: nat, j: nat)
    requires t.ValidSteps()
    requires -2.0 * t.w <= x < t.w && -t.w <= y < 2.0 * t.w
    ensures k < t.RowCount() && j < t.ColumnCount(k)
    ensures t.Row(k)[j].y <= y < t.Row(k)[j].y + t.stepY
    ensures t.Row(k)[j].x <= x < t.Row(k)[j].x + t.stepX
  {
    k := CountBelowCovers(-t.w, 2.0 * t.w, t.stepY, y);
    j := CountBelowCovers(t.RowStart(k), t.w, t.stepX, x);
  }

  /** A zero diagonal leaves the outer loop with nothing to do. */
  lemma DegenerateTilingIsEmpty(t: Tiling)
    requires t.ValidSteps()
    requires t.w == 0.0
    ensures t.RowCount() == 0
    ensures t.Origins() == []
  {
  }

  /** A product of two positive numbers is positive. */
  lemma ProductPositive(a: real, b: real)
    requires a > 0.0 && b > 0.0
    ensures a * b > 0.0
  {
  }

  /**
   * A non-negative number whose square is zero is zero: the diagonal of an
   * empty rectangle is zero. `v` is `w` itself, and callers pass `w` twice.
   * The square is written `w * v`, with `v` pinned to `w` by two bounds,
   * because the solver does not close the one-variable form `w * w == 0.0`.
   */
  lemma ZeroDiagonal(w: real, v: real)
    requires w >= 0.0 && w <= v <= w
    requires w * v == 0.0
    ensures w == 0.0
  {
    if w > 0.0 {
      ProductPositive(w, v);
    }
  }

  /** `ZLWatermarkView`: the watermark text and the three attributes it is drawn with. */
  class WatermarkView {
    var watermark: string
    var wColor: Color
    var wFontSize: real
    var wAlpha: real

    /** `init(frame:)` with the property defaults: no text, black, 15 points, opaque. */
    constructor ()
      ensures watermark == "" && wColor == Black && wFontSize == 15.0 && wAlpha == 1.0
    {
      watermark := "";
      wColor := Black;
      wFontSize := 15.0;
      wAlpha := 1.0;
    }

    /** `reload(_:color:fontSize:fontAlpha:)`. */
    method Reload(watermark: string, color: Color, fontSize: real, fontAlpha: real := 1.0)
      modifies this
      ensures this.watermark == watermark && wColor == color && wFontSize == fontSize && wAlpha == fontAlpha
    {
      wColor := color;
      wFontSize := fontSize;
      wAlpha := fontAlpha;
      this.watermark := watermark;
    }

    /** The attributes of every tile: the colour with its alpha replaced by `wAlpha`, at `wFontSize`. */
    function TextAttribute(): TextAttributes
      reads this
    {
      TextAttributes(wColor.WithAlphaComponent(wAlpha), wFontSize)
    }

    /**
     * The tiling loops of `draw(_:)`: the draw calls it makes, in order.
     * `textSize` is what text measurement returns for the watermark, and `w`
     * is the diagonal of `rect`, `sqrt(width^2 + height^2)`.
     */
    method Draw(rect: Rect, textSize: Size, w: real) returns (draws: seq<TextDraw>)
      requires textSize.width >= 0.0 && textSize.height >= 0.0
      requires w >= 0.0 && w * w == rect.size.width * rect.size.width + rect.size.height * rect.size.height
      ensures var tiles := Tiling(w, StepX(textSize), StepY(textSize)).Origins();
              |draws| == |tiles| &&
              forall i :: 0 <= i < |draws| ==> draws[i] == TextDraw(watermark, tiles[i], TextAttribute())
      ensures rect.size.width == 0.0 && rect.size.height == 0.0 ==> draws == []
    {
      var textAttribute := TextAttribute();
      var text := watermark;
      var stepX := textSize.width + Gutter;
      var stepY := textSize.height + Gutter;
      ghost var t := Tiling(w, stepX, stepY);
      ghost var origins: seq<Point> := [];
      ghost var row: nat := 0;

      draws := [];
      var y := -w;
      var doOffset := false;
      while y < 2.0 * w
        invariant y == t.RowY(row)
        invariant doOffset <==> row % 2 == 1
        invariant row <= t.RowCount()
        invariant origins == t.RowsUpTo(row)
        invariant |draws| == |origins|
        invariant forall i :: 0 <= i < |draws| ==> draws[i] == TextDraw(text, origins[i], textAttribute)
        decreases t.RowCount() - row
      {
        RowCountIsLeast(t, row);
        var x := -2.0 * w;
        if doOffset {
          x := x - stepX / 2.0;
        }
        ghost var col: nat := 0;
        while x < w
          invariant x == Advance(t.RowStart(row), stepX, col)
          invariant col <= t.ColumnCount(row)
          invariant origins == t.RowsUpTo(row) + t.Row(row)[..col]
          invariant |draws| == |origins|
          invariant forall i :: 0 <= i < |draws| ==> draws[i] == TextDraw(text, origins[i], textAttribute)
          decreases t.ColumnCount(row) - col
        {
          ColumnCountIsLeast(t, row, col);
          var p := Point(x, y);
          draws := draws + [TextDraw(text, p, textAttribute)];
          origins := origins + [p];
          assert t.Row(row)[..col + 1] == t.Row(row)[..col] + [p];
          x := x + stepX;
          col := col + 1;
        }
        ColumnCountIsLeast(t, row, col);
        assert t.Row(row)[..col] == t.Row(row);
        y := y + stepY;
        doOffset := !doOffset;
        row := row + 1;
      }
      RowCountIsLeast(t, row);
      if rect.size.width == 0.0 && rect.size.height == 0.0 {
        ZeroDiagonal(w, w);
        DegenerateTilingIsEmpty(t);
      }
    }
  }
}
