# Text-sticker geometry and watermark tiling of ZLPhotoBrowser's editor

This project models two pieces of the overlay layer of ZLPhotoBrowser's photo
editor and proves what they promise.

- **The text sticker** (`ZLTextStickerView`). A sticker carries ten fields:
  the text, its colour, its style, its rendered image, an origin scale and
  angle, an origin frame, a gesture scale and rotation, and a total
  translation. Its `state` getter and `init(state:)` snapshot and restore
  those fields. `calculateSize(image:)` pads the image by a 10-point inset on
  every side. `changeSize(to:)` does three things:
  - it takes the view transform off in four steps;
  - it re-centres the live frame and the origin frame, each around its own
    centre, on the new size, and lays out the image and option subviews;
  - it puts the four steps back.
- **The watermark layer** (`ZLWatermarkView`). `reload` sets the text,
  colour, font size and alpha. `draw(_:)` repeats the text over a square band
  around the view with two nested loops:
  - rows run from `y = -w` while `y < 2w`, where `w` is the view's diagonal;
  - tiles within a row run from `x = -2w` while `x < w`;
  - every other row starts half a step further left, so rows interlock like
    bricks;
  - a step is the measured text size plus a 20-point gutter.

Files:
- `graphics.dfy` (module `Graphics`): points, sizes, rectangles, colours, and
  `CGRect.insetBy`.
- `text_sticker.dfy` (module `TextSticker`): the sticker as a class with its
  fields. `ChangeSize` is an imperative method that reassigns `transform`
  eight times, like the source. Pure functions state what it computes.
- `watermark.dfy` (module `Watermark`): the watermark view as a class.
  `Draw` runs the source's two `while` loops and returns the draw calls in
  order. It is proved equal to a specification of the tiling (`Tiling`),
  and the lemmas state the tiling's properties.

Modelling choices:
- `CGFloat` is `real`, so there is no rounding.
- The view transform is `AffineTransform(scale, angle, tx, ty)`, a uniform
  scale times a rotation plus a translation. `scaledBy` and `rotated`
  concatenate in front of the existing transform. So they change only the
  linear part, and a uniform scale commutes with a rotation. The model is
  therefore exact for the transforms `changeSize` builds, without
  trigonometry.
- `zl.toPi` is `degrees * Pi / 180`, with `Pi` written out to double
  precision. No proof depends on its value.
- The sticker's `frame` field is the rectangle the view reports as its frame
  while `changeSize` recomputes it. That is the frame under the transform in
  force between the two halves of the method. `ChangeSize` returns that
  transform as a ghost result. `RevertedComposed` shows it is the identity
  when the sticker shows its composed transform and has no translation.
- Text measurement and `sqrt` are inputs to `Draw`:
  - `textSize` must be non-negative, as `boundingRect` returns;
  - `w` must satisfy `w >= 0` and `w * w == width^2 + height^2`.
- The loop variables `y` and `x` grow by repeated addition. The
  specification does the same (`Advance`), and `AdvanceIsMultiple` proves
  that the `k`-th value is `start + k * step`.

Notes on the code:
- A step is the measured text size plus 20, with no other guard. Text
  measurement is never negative, so both steps are at least 20 and both
  loops terminate (`StepsAtLeastGutter`, the `decreases` clauses of `Draw`).
- `changeSize` removes the origin scale before the gesture scale. On re-apply
  it applies the origin scale first, then the gesture scale, the gesture
  rotation and the origin angle. `Reverted` and `Reapplied` follow that
  order.
- `changeSize` updates the sticker in place.

## Model

| member | source | states |
|---|---|---|
| `Graphics.InsetBy` | Sources/Edit/ZLTextStickerView.swift:165 | `insetBy` keeps the rectangle's centre and shrinks each dimension by twice the inset; the result is `CGRect.null` (None) exactly when a dimension would go negative |
| `TextSticker.ReappliedReverted` | Sources/Edit/ZLTextStickerView.swift:143-174 | putting the four transform steps back after taking them off gives the transform `changeSize` started with, for non-zero scales |
| `TextSticker.RevertedComposed` | Sources/Edit/ZLTextStickerView.swift:143-148 | taking the steps off a sticker's composed transform leaves only its translation, hence the identity when there is none |
| `TextSticker.Recentered` | Sources/Edit/ZLTextStickerView.swift:151-163 | the re-centred rectangle has the old rectangle's centre and exactly the new size |
| `TextSticker.RecenteredRoundTrip` | Sources/Edit/ZLTextStickerView.swift:151-163 | resizing to any size and then back to the original size restores the original rectangle |
| `TextSticker.RecenteredTwice` | Sources/Edit/ZLTextStickerView.swift:151-163 | two resizes in a row equal one resize to the last size |
| `TextSticker.RecenteredExample` | Sources/Edit/ZLTextStickerView.swift:158-163 | a 100 by 100 origin frame at (0, 0) resized to 50 by 50 becomes (25, 25, 50, 50) |
| `TextSticker.CalculatedSizeFitsImage` | Sources/Edit/ZLTextStickerView.swift:177-182 | `calculateSize` adds 20 to each dimension, and the bounds of that size inset by 10 are exactly the image's rectangle, which is what the image view's frame relies on |
| `TextSticker.TextStickerView.constructor` | Sources/Edit/ZLTextStickerView.swift:97-119 | the initialiser stores all ten sticker values and the border flag, with the gesture scale, rotation, translation and border flag defaulting to 1, 0, zero and true |
| `TextSticker.TextStickerView.FromState` | Sources/Edit/ZLTextStickerView.swift:62-95 | a sticker restored from a snapshot has a `state` equal to that snapshot, field by field, and shows no border |
| `TextSticker.TextStickerView.SetupUIFrameWhenFirstLayout` | Sources/Edit/ZLTextStickerView.swift:126-129 | the image view sits inside the bounds inset by 10 and the option view fills the bounds |
| `TextSticker.TextStickerView.ChangeSize` | Sources/Edit/ZLTextStickerView.swift:141-175 | the transform on exit equals the transform on entry; the live frame and the origin frame each keep their own centre and take the new size; the subviews are laid out on the new bounds; no other field is assigned |
| `Watermark.WatermarkView.constructor` | Sources/Edit/ZLWatermarkView.swift:13-30 | a new watermark view has empty text, black colour, font size 15 and alpha 1 |
| `Watermark.WatermarkView.Reload` | Sources/Edit/ZLWatermarkView.swift:36-41 | `reload` sets the text, colour, font size and alpha to its arguments, with alpha 1 when none is given |
| `Watermark.WatermarkView.Draw` | Sources/Edit/ZLWatermarkView.swift:71-100 | the loops draw exactly the tiling's origins, in order, each with the watermark text, the colour with its alpha replaced by `wAlpha`, and `wFontSize`; an empty rectangle draws nothing |
| `Watermark.StepsAtLeastGutter` | Sources/Edit/ZLWatermarkView.swift:74-78 | for a non-negative measured size, both steps are at least the 20-point gutter |
| `Watermark.AdvanceIsMultiple` | Sources/Edit/ZLWatermarkView.swift:85-95 | after `n` additions of a step, a loop variable is its start plus `n` steps |
| `Watermark.CountBelow` | Sources/Edit/ZLWatermarkView.swift:85-95 | the number of iterations of a loop that adds a step while below a limit is the first `n` whose value reaches the limit |
| `Watermark.CountBelowIsLeast` | Sources/Edit/ZLWatermarkView.swift:85-95 | the `k`-th value is below the limit if and only if `k` is less than the iteration count |
| `Watermark.CountBelowCovers` | Sources/Edit/ZLWatermarkView.swift:85-95 | every value between the start and the limit lies in the step-wide cell of one of the counted iterations |
| `Watermark.RowYIsMultiple` | Sources/Edit/ZLWatermarkView.swift:81-88 | row `k` is drawn at `y == -w + k * stepY` |
| `Watermark.RowCountIsLeast` | Sources/Edit/ZLWatermarkView.swift:81-88 | row `k` is drawn if and only if its `y` is below `2w`, so the number of rows is the least `k` with `-w + k * stepY >= 2w` |
| `Watermark.ColumnCountIsLeast` | Sources/Edit/ZLWatermarkView.swift:90-95 | tile `j` of a row is drawn if and only if its `x` is below `w` |
| `Watermark.RowsAlternate` | Sources/Edit/ZLWatermarkView.swift:83-93 | row 0 starts at `-2w`; row `k` starts at `-2w - stepX/2` exactly when `k` is odd; neighbouring rows' starts differ by half a step |
| `Watermark.RowIsEvenlySpaced` | Sources/Edit/ZLWatermarkView.swift:90-96 | a row's first tile is at the row's start, consecutive tiles are exactly `stepX` apart, and all share the row's `y` |
| `Watermark.TilesInBounds` | Sources/Edit/ZLWatermarkView.swift:81-96 | every tile satisfies `-w <= y < 2w` and `-2w - stepX/2 <= x < w` |
| `Watermark.TilesInDrawingOrder` | Sources/Edit/ZLWatermarkView.swift:85-100 | tiles are drawn row by row with strictly increasing `y`, and left to right within a row, so no origin is drawn twice |
| `Watermark.TilesCoverBand` | Sources/Edit/ZLWatermarkView.swift:84-95 | every point with `-2w <= x < w` and `-w <= y < 2w` lies in the step-sized cell of some drawn tile |
| `Watermark.DegenerateTilingIsEmpty` | Sources/Edit/ZLWatermarkView.swift:80-85 | with a zero diagonal there are no rows and no tiles |
| `Watermark.ZeroDiagonal` | Sources/Edit/ZLWatermarkView.swift:80 | the diagonal of a rectangle with zero width and height is zero |

## Left out

- The base sticker class `ZLBaseStickerView` is not part of this model. The
  constructors assume its initialiser stores the values passed to it. The
  initial frame, transform and subview frames it lays out are left
  unspecified. `borderView.bounds` is taken to be the sticker's bounds.
- The sticker's on-screen frame after the transform is put back is not
  modelled. It is the bounding box of the rotated and scaled rectangle, and
  computing it needs trigonometry.
- `tapAction`, the delete, copy and modify button handlers,
  `hiddenBorder` and `ZLTextStickerOptionView` are left out. They are
  delegate calls, a timer check and button layout, with no geometry.
- Core Graphics context calls in `draw(_:)` are left out: saving and
  restoring the state, clearing the rectangle, the soft-light blend mode,
  and the translation and rotation by -45 degrees. The model covers the
  draw calls and their origins, not the pixels.
- Text measurement (`boundingRect`) and `sqrt` are inputs to `Draw`.
- IEEE rounding of `CGFloat` is not modelled: steps and loop variables are
  exact reals.
- `setNeedsDisplay` on layout changes and on a new watermark text, the
  unused date formatter and the debug print in `deinit` are left out.
- The watermark toolbar (`ZLEditWatermarkToolsView`) is not part of this
  model. It is slider, text-view and colour-cell glue around `reload`.
- `TextSticker.TextStickerView.State`: carries no contract of its own. The
  `state` getter is a field-by-field copy, and its round trip with
  `init(state:)` is stated on `FromState`. `ZLTextStickerState`'s
  initialiser (Sources/Edit/ZLTextStickerView.swift:201-238) is the datatype
  constructor `TextStickerState`.
- `TextSticker.TextStickerView.ChangeSize`: requires a non-zero origin
  scale and gesture scale. With a zero scale, `1 / 0` in `CGFloat` is
  infinity, and the source builds a non-finite transform instead of failing.
  The model excludes that case and does not describe the transform it leads to.
