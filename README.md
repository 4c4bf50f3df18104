# NTKit core, modelled in Dafny

NTKit is a small UIKit library. This project models the parts of it that can be separated
from drawing and layout, with coordinates as reals and UIKit objects as plain records or
small classes:

- **Block-text effect** (`NTImageBlockTextEffect`). Covers the `text`, `rawText` and `alpha`
  properties and the typed key/value store (`acceptedKeys`, `changeValueOf`, `getValueOf`).
  The row breaker `generateTextRows(fromString:withTarget:)` is modelled as a `while` loop
  proved equal to a recursive specification. `generateTextRows()` splits on newlines, trims
  each line and concatenates the rows of every line. `calculateOffsetFrom` places the block
  anchor for each of the nine `NTImageEffectAnchorPosition` cases.
- **Shade effect and effect pipeline**. `createPath` picks a polygon per shade shape.
  `pathFromPoints` emits a closed polyline into a context, modelled as a list of move/line
  commands. `NTImage.withEffects` is a loop equal to a left fold of opaque effects.
- **Tile view and row layout** (`NTKit/NTTileView`, plus the older copy in
  `NTTileView/`). Covers the lockstep `tiles`/`views` arrays, reload/refresh, `addTile`, the
  identity search `getTileIndex`, and the layout's `lastAction`/`lastActionIndex` state
  machine with its replay on a frame change. The frame loops (equal rows, one focused row)
  and `position`, which centres a tile's anchor in its container, are modelled as methods
  over `View` objects whose `frame` field they assign.
- **Crop and zoom geometry**:
  - `NTCropHelper.scale` moves a path (a non-empty sequence of vertices) to the origin,
    scales it, and moves it to a point.
  - `NTCropOverlayView.scaleCropPath`, `cropRect`, `scaledPathInFrame`, the `cropPath` setter,
    `layoutSubviews` and `pointInside`.
  - `NTImageView` and its duplicate `NTCropScrollView`: the fit-to-frame zoom, the widened
    zoom bounds, the symmetric padding, and the `image` setter and `layoutSubviews` guards.

Files:
- `options.dfy`, `geometry.dfy`: shared value types.
- `block_text.dfy`, `text_rows.dfy`, `anchor_position.dfy`: the block-text effect.
- `shade_effect.dfy`, `image_effects.dfy`: the shade effect and the effect pipeline.
- `row_frames.dfy`, `tile_views.dfy`, `legacy_tile_views.dfy`: the tile view, the row
  layout, and the older copies of both.
- `crop_helper.dfy`, `crop_overlay.dfy`, `zoom.dfy`: the crop and zoom geometry.

Where the source is imperative, the model is a class with mutable fields and methods with
`modifies` clauses. Each method is proved against a specification function, and that
function's properties are proved as lemmas. Pure code becomes functions and lemmas.

The crop overlay's fill comparison is modelled exactly as written (see "## Findings"). The
corrected rule is defined and proved beside it.

## Model

| member | source | states |
|---|---|---|
| BlockText.Uppercased | NTKit/NTImage/NTImageBlockTextEffect.swift:45 | the capitalised text has the same length, maps each character through the uppercasing, and contains no lower-case letter |
| BlockText.UppercasedIdempotent | NTKit/NTImage/NTImageBlockTextEffect.swift:45 | uppercasing twice equals uppercasing once |
| BlockText.ClampAlpha | NTKit/NTImage/NTImageBlockTextEffect.swift:55-60 | the clamped alpha lies in [0, 1]; values inside are kept; below 0 gives 0 and above 1 gives 1 |
| BlockText.AcceptedKeys | NTKit/NTImage/NTImageBlockTextEffect.swift:324-327 | there are nine accepted keys |
| BlockText.Change | NTKit/NTImage/NTImageBlockTextEffect.swift:329-405 | changeValueOf fails (returns false, no change) exactly when the key or the value's dynamic type is not accepted; an unknown key always fails; a successful change keeps alpha in [0, 1] |
| BlockText.Get | NTKit/NTImage/NTImageBlockTextEffect.swift:407-435 | getValueOf gives nil exactly for keys outside acceptedKeys |
| BlockText.ChangeThenGet | NTKit/NTImage/NTImageBlockTextEffect.swift:336-431 | a value the store accepts is read back as stored: converted from Float, clamped for alpha, and the raw text for "text" |
| BlockText.ChangeLeavesOtherKeys | NTKit/NTImage/NTImageBlockTextEffect.swift:329-405 | a successful change leaves the value of every other key as it was |
| BlockText.AlphaFromBool | NTKit/NTImage/NTImageBlockTextEffect.swift:397-399 | setting "alpha" to a Bool stores exactly 1 or 0 and changes nothing else |
| BlockText.BlockTextEffect.constructor | NTKit/NTImage/NTImageBlockTextEffect.swift:34-60 | a new effect has the declared defaults (anchor zero, Center, width 0, empty text, 12-point system font, clear colour, threshold 0.33, no capitalisation, alpha 1) |
| BlockText.BlockTextEffect.Text | NTKit/NTImage/NTImageBlockTextEffect.swift:38-50 | the text getter is the raw text, uppercased when capitalize is set |
| BlockText.BlockTextEffect.SetText | NTKit/NTImage/NTImageBlockTextEffect.swift:47-49 | the setter stores the value unmodified and changes nothing else |
| BlockText.BlockTextEffect.SetAlpha | NTKit/NTImage/NTImageBlockTextEffect.swift:55-60 | assigning alpha stores the clamped value and changes nothing else |
| BlockText.BlockTextEffect.ChangeValueOf | NTKit/NTImage/NTImageBlockTextEffect.swift:329-405 | returns whether the store accepts the pair; afterwards the state is the changed settings on success and the old ones on failure |
| BlockText.BlockTextEffect.CalculateOffsetFrom | NTKit/NTImage/NTImageBlockTextEffect.swift:249-277 | the offset is the anchor minus 0, half or all of the size on each axis, following the case's horizontal and vertical alignment |
| BlockText.BlockTextEffect.GenerateTextRowsFromString | NTKit/NTImage/NTImageBlockTextEffect.swift:202-245 | the while loop over wordIndex returns exactly the rows of the specification BreakLine, when no word stalls the loop |
| BlockText.BlockTextEffect.GenerateTextRows | NTKit/NTImage/NTImageBlockTextEffect.swift:180-188 | the words of the rows, read in order, are the words of the newline-separated trimmed lines of the text |
| AnchorPositions.AlignmentsDetermineCase | NTKit/NTImage/NTImageEffectAnchorPosition.swift:30-39 | each case is the one `PositionOf` picks for its own alignments, and no two cases share a horizontal and a vertical alignment |
| AnchorPositions.PositionOf | NTKit/NTImage/NTImageEffectAnchorPosition.swift:30-39 | every combination of a horizontal and a vertical alignment is named by a case |
| TextLayout.Split | NTKit/NTImage/NTImageBlockTextEffect.swift:183 | `components(separatedBy:)` gives at least one component and no component contains a separator |
| TextLayout.JoinSplit | NTKit/NTImage/NTImageBlockTextEffect.swift:203 | joining the components of a one-character split with that character gives back the string |
| TextLayout.SplitAt | NTKit/NTImage/NTImageBlockTextEffect.swift:183 | splitting distributes over an occurrence of a separator |
| TextLayout.Trim | NTKit/NTImage/NTImageBlockTextEffect.swift:184 | trimming removes exactly the leading and trailing whitespace run; the result is empty exactly when the line is all whitespace, and otherwise starts and ends with a non-whitespace character |
| TextLayout.WordsJoin | NTKit/NTImage/NTImageBlockTextEffect.swift:211-214 | joining two strings with one space concatenates their words |
| TextLayout.WordsGrow | NTKit/NTImage/NTImageBlockTextEffect.swift:211-214 | adding a word to stringB adds that word (if non-empty) to its words |
| TextLayout.StallsIff | NTKit/NTImage/NTImageBlockTextEffect.swift:216-221 | with a non-negative target a word makes the loop stall exactly when it is longer than twice the target |
| TextLayout.BreakStep | NTKit/NTImage/NTImageBlockTextEffect.swift:210-233 | one iteration: without overflow the word joins the row; on overflow one row is emitted, the candidate no farther from the target than the other, with ties going to the longer candidate; the word is revisited exactly when the shorter candidate was strictly closer |
| TextLayout.StallRepeats | NTKit/NTImage/NTImageBlockTextEffect.swift:219-221 | a stalling word with an empty row so far emits "" and leaves the loop state unchanged, so the loop never ends |
| TextLayout.PackWords | NTKit/NTImage/NTImageBlockTextEffect.swift:210-233 | the word loop keeps every non-empty word in order: emitted rows followed by the remainder hold exactly the words read |
| TextLayout.PackRows | NTKit/NTImage/NTImageBlockTextEffect.swift:210-233 | with a non-negative target every row the loop emits is non-empty and at most twice the target long, and the remainder is within the target |
| TextLayout.FinishWords | NTKit/NTImage/NTImageBlockTextEffect.swift:235-242 | the trailing merge keeps the words of the rows and of the remainder, in order |
| TextLayout.BreakLineWords | NTKit/NTImage/NTImageBlockTextEffect.swift:202-245 | no non-empty word of a line is dropped or reordered by breaking it into rows |
| TextLayout.BreakLineRowBounds | NTKit/NTImage/NTImageBlockTextEffect.swift:202-245 | with a non-negative target every row is non-empty and every row but the last is at most twice the target long |
| TextLayout.BreakLineEmpty | NTKit/NTImage/NTImageBlockTextEffect.swift:236 | an empty line gives no rows when the target is non-negative |
| TextLayout.FixedBreakStep | NTKit/NTImage/NTImageBlockTextEffect.swift:210-233 | the corrected iteration does what the original does, except that a word overflowing an empty row becomes a row itself; it revisits a word only after emitting a non-empty row |
| TextLayout.FixedPackWords | NTKit/NTImage/NTImageBlockTextEffect.swift:210-233 | the corrected word loop keeps every non-empty word in order, on every input |
| TextLayout.FixedBreakLineWords | NTKit/NTImage/NTImageBlockTextEffect.swift:202-245 | the corrected breaker drops and reorders no non-empty word of any line, with no precondition |
| TextLayout.FixedBreakLineAgrees | NTKit/NTImage/NTImageBlockTextEffect.swift:202-245 | wherever no word stalls, the corrected breaker gives exactly the rows of the breaker as written |
| TextLayout.FixedBreaksStallingLine | NTKit/NTImage/NTImageBlockTextEffect.swift:216-221 | the line "aaa" with target 1 stalls the loop as written, and the corrected breaker makes it one row |
| TextLayout.BreakLineEmptyNegative | NTKit/NTImage/NTImageBlockTextEffect.swift:216-223 | with a negative target an empty line gives one empty row |
| TextLayout.TextRowsAppend | NTKit/NTImage/NTImageBlockTextEffect.swift:183-185 | the rows of a text are the rows before a line break followed by the rows after it |
| TextLayout.BlankLineNoRows | NTKit/NTImage/NTImageBlockTextEffect.swift:184-185 | a line of only whitespace contributes no rows when the target is non-negative |
| TextLayout.RowsOfLinesWords | NTKit/NTImage/NTImageBlockTextEffect.swift:184-185 | the words of the rows of a list of lines are the words of the trimmed lines, line after line |
| TextLayout.TextRowsWords | NTKit/NTImage/NTImageBlockTextEffect.swift:180-188 | the words of all rows are the words of the trimmed newline-separated lines of the text |
| ShadeEffect.CornerPoints | NTKit/NTImage/NTImageShadeEffect.swift:55-92 | triangles give three points, all other shapes four; for a non-negative size all points lie in the image; triangle points are corners; every Square shape has the centre as a vertex |
| ShadeEffect.FullUsesAllCorners | NTKit/NTImage/NTImageShadeEffect.swift:66-91 | Full is the one shape whose points are exactly the four corners |
| ShadeEffect.TopBottomShareMidline | NTKit/NTImage/NTImageShadeEffect.swift:68-71 | Top and Bottom both have the horizontal midline as an edge |
| ShadeEffect.LeftRightShareMidline | NTKit/NTImage/NTImageShadeEffect.swift:72-75 | Left and Right both have the vertical midline as an edge |
| ShadeEffect.ClosedPolyline | NTKit/NTImage/NTImageShadeEffect.swift:95-104 | no points give no commands; otherwise a move to the first point, a line to each later point, and a line back to the first |
| ShadeEffect.ClosedPolylineVisits | NTKit/NTImage/NTImageShadeEffect.swift:99-103 | the polyline visits the points in order and returns to the first, and only its first command is a move |
| ShadeEffect.ShadeEffectModel.PathFromPoints | NTKit/NTImage/NTImageShadeEffect.swift:95-104 | the loop appends exactly the closed polyline through the points to the context's path |
| ShadeEffect.ShadeEffectModel.CreatePath | NTKit/NTImage/NTImageShadeEffect.swift:50-93 | a nil context draws nothing; otherwise the shape's closed polygon is added to the path |
| ImageEffects.ApplyEffectsSnoc | NTKit/NTImage/NTImage.swift:21-27 | an effect appended to the list runs last, on what the others produced |
| ImageEffects.ApplyEffectsAppend | NTKit/NTImage/NTImage.swift:21-27 | running two lists one after the other is running their concatenation |
| ImageEffects.Stages | NTKit/NTImage/NTImage.swift:23-25 | each effect is applied exactly once, in array order, to the previous result |
| ImageEffects.StagesEndInResult | NTKit/NTImage/NTImage.swift:21-27 | the last stage is the folded result |
| ImageEffects.NTImage.WithEffects | NTKit/NTImage/NTImage.swift:21-27 | the loop returns the left fold of the effects over the image, and the image itself for no effects; nothing is modified |
| RowFrames.PositionFrame | NTKit/NTTileView/NTTileViewRowLayout.swift:115-123 | the tile's anchor lands on its container's centre, and the tile takes the tile view's size |
| RowFrames.EqualRowsStack | NTKit/NTTileView/NTTileViewRowLayout.swift:37-49 | equal rows are full width and 1/n of the height, start at the top, touch, and end at the bottom |
| RowFrames.FocusYClosedForm | NTKit/NTTileView/NTTileViewRowLayout.swift:63-75 | heightCounter before row i is the full height once the focused row has been passed, and 0 before |
| RowFrames.FocusRowsStack | NTKit/NTTileView/NTTileViewRowLayout.swift:56-77 | the focused row has the whole height and the others none; rows after it sit at the bottom; consecutive rows touch |
| RowFrames.Position | NTKit/NTTileView/NTTileViewRowLayout.swift:115-123 | position assigns the tile view's frame from its container's frame and changes nothing else |
| RowFrames.PlaceRow | NTKit/NTTileView/NTTileViewRowLayout.swift:43-49 | one loop iteration extends the arranged prefix by one container and its tile |
| RowFrames.LayOutEqualRows | NTKit/NTTileView/NTTileViewRowLayout.swift:43-49 | after the loop every container has its equal-row frame and every tile is positioned in its container (for a tile listed twice, in its last container) |
| RowFrames.LayOutFocus | NTKit/NTTileView/NTTileViewRowLayout.swift:63-76 | after the loop with its running heightCounter every container has its focus frame and every tile is positioned in it |
| TileViews.Tile.constructor | NTKit/NTTileView/NTTile.swift:11-13 | a new tile has its view and anchor and no parent tile view |
| TileViews.TileViewsOf | NTKit/NTTileView/NTTileViewRowLayout.swift:47 | the tiles' views, index by index |
| TileViews.AnchorsOf | NTKit/NTTileView/NTTileViewRowLayout.swift:116 | the tiles' anchors, index by index |
| TileViews.TileView.constructor | NTKit/NTTileView/NTTileView.swift:56-59 | a new tile view has no data source and no tiles, and a fresh row layout bound to it with last action None |
| TileViews.TileView.ConfigureView | NTKit/NTTileView/NTTileView.swift:66-70 | installs a new row layout bound to this view, with last action None and index 0 |
| TileViews.TileView.SetDataSource | NTKit/NTTileView/NTTileView.swift:21-25 | stores the data source and nothing else (the didSet does nothing) |
| TileViews.TileView.SetLayout | NTKit/NTTileView/NTTileView.swift:38-42 | stores the layout and nothing else |
| TileViews.TileView.AddTile | NTKit/NTTileView/NTTileView.swift:92-105 | appends one tile and one fresh container in lockstep and sets the tile's parent to this view |
| TileViews.TileView.AddTiles | NTKit/NTTileView/NTTileView.swift:78-84 | after the loop the tiles are exactly the supplied ones in index order, each with a fresh container and this view as parent |
| TileViews.TileView.ReloadTiles | NTKit/NTTileView/NTTileView.swift:72-86 | no data source: nothing changes; otherwise tiles are the supplied ones, views match them, the layout's last action is Reset and the rows are equal |
| TileViews.TileView.ArrangeTiles | NTKit/NTTileView/NTTileView.swift:88-90 | resets the layout if there is one (Reset recorded, index kept, equal rows); without one, no view moves |
| TileViews.TileView.Focus | NTKit/NTTileView/NTTileView.swift:112-114 | forwarded to the layout: records Focus with the index and shows the focused arrangement; nothing without a layout |
| TileViews.TileView.CollapseAllTiles | NTKit/NTTileView/NTTileView.swift:120-122 | forwarded to the layout: records Collapse and shows equal rows; nothing without a layout |
| TileViews.TileView.LayoutSublayers | NTKit/NTTileView/NTTileView.swift:144-147 | the layout replays its recorded action, keeping the record |
| TileViews.TileView.GetTileIndex | NTKit/NTTileView/NTTileView.swift:133-140 | the first index holding this very tile, or nil exactly when the tile is not held |
| TileViews.RowLayout.constructor | NTKit/NTTileView/NTTileViewRowLayout.swift:25-31 | bound to the tile view, last action None and index 0 |
| TileViews.RowLayout.ResetTileLayout | NTKit/NTTileView/NTTileViewRowLayout.swift:34-50 | records Reset, keeps the recorded index and shows equal rows: the same arrangement `CollapseAll` leaves, whose frames `RowFrames.EqualRowsStack` describes |
| TileViews.RowLayout.FocusOnTile | NTKit/NTTileView/NTTileViewRowLayout.swift:52-78 | records Focus and the index and shows the focused arrangement |
| TileViews.RowLayout.CollapseAll | NTKit/NTTileView/NTTileViewRowLayout.swift:80-98 | records Collapse and shows equal rows, the same arrangement `ResetTileLayout` leaves |
| TileViews.RowLayout.UpdateForFrame | NTKit/NTTileView/NTTileViewRowLayout.swift:100-111 | replays the recorded action with the recorded index, keeping the record; None changes no frame |
| LegacyTileViews.Tile.constructor | NTTileView/NTTile.swift:11-12 | a new tile has its view and anchor |
| LegacyTileViews.TileViewsOf | NTTileView/NTTileViewRowLayout.swift:40 | the tiles' views, index by index |
| LegacyTileViews.AnchorsOf | NTTileView/NTTileViewRowLayout.swift:109 | the tiles' anchors, index by index |
| LegacyTileViews.TileView.constructor | NTTileView/NTTileView.swift:22-65 | no data source, no tiles, a fresh default row layout |
| LegacyTileViews.TileView.SetDataSource | NTTileView/NTTileView.swift:23-32 | stores the data source and refreshes: with one, the supplied tiles laid out in equal rows by a reset; with none, tiles, views and layout stay as they were |
| LegacyTileViews.TileView.SetLayout | NTTileView/NTTileView.swift:45-54 | stores the layout and refreshes with it; without a data source nothing else changes |
| LegacyTileViews.TileView.AddTile | NTTileView/NTTileView.swift:83-92 | appends one tile and one fresh container in lockstep |
| LegacyTileViews.TileView.AddTiles | NTTileView/NTTileView.swift:73-79 | after the loop the tiles are the supplied ones in index order, each with a fresh container |
| LegacyTileViews.TileView.RefreshTiles | NTTileView/NTTileView.swift:67-81 | no data source: nothing changes; otherwise the supplied tiles, laid out with a reset |
| LegacyTileViews.RowLayout.constructor | NTTileView/NTTileViewRowLayout.swift:23-24 | last action None, index 0 |
| LegacyTileViews.RowLayout.ResetTileLayout | NTTileView/NTTileViewRowLayout.swift:27-43 | records Reset and shows equal rows in the given tile view |
| LegacyTileViews.RowLayout.FocusOnTile | NTTileView/NTTileViewRowLayout.swift:45-71 | records Focus and the index and shows the focused arrangement |
| LegacyTileViews.RowLayout.CollapseAll | NTTileView/NTTileViewRowLayout.swift:73-91 | records Collapse and shows equal rows |
| LegacyTileViews.RowLayout.UpdateForFrame | NTTileView/NTTileViewRowLayout.swift:93-104 | replays the recorded action on the given tile view; None changes no frame |
| CropHelper.MinOfLeast | NTKit/NTCrop/NTCropHelper.swift:14 | the least coordinate is below every coordinate and is one of them |
| CropHelper.MaxOfGreatest | NTKit/NTCrop/NTCropHelper.swift:14 | the greatest coordinate is above every coordinate and is one of them |
| CropHelper.BoundsTight | NTKit/NTCrop/NTCropHelper.swift:14 | every vertex lies in the bounding box and each side of the box passes through a vertex |
| CropHelper.Translated | NTKit/NTCrop/NTCropHelper.swift:15-16 | a translation moves every vertex by the offset |
| CropHelper.Scaled | NTKit/NTCrop/NTCropHelper.swift:18 | a scale multiplies every coordinate |
| CropHelper.TransformedFrom | NTKit/NTCrop/NTCropHelper.swift:20-22 | the three transforms in turn map each vertex p to (p - box.min) * scale + point |
| CropHelper.Scale | NTKit/NTCrop/NTCropHelper.swift:12-24 | the copy has as many vertices as the path, each mapped to (p - bounds.min) * scale + point |
| CropHelper.MonotoneExtremes | NTKit/NTCrop/NTCropHelper.swift:14-22 | an order-preserving map takes the least and greatest coordinates to the least and greatest |
| CropHelper.AffineSpan | NTKit/NTCrop/NTCropHelper.swift:15-22 | the least coordinate goes to the target and the span is multiplied by the scale |
| CropHelper.AffineMonotone | NTKit/NTCrop/NTCropHelper.swift:15-22 | for a positive scale the per-axis map preserves order |
| CropHelper.AxisExtremes | NTKit/NTCrop/NTCropHelper.swift:15-22 | on one axis the new minimum is the target and the new spread is the old one times the scale |
| CropHelper.AffineImageBoundsX | NTKit/NTCrop/NTCropHelper.swift:15-22 | the x extent of the transformed path starts at point.x and is scale times as wide |
| CropHelper.AffineImageBoundsY | NTKit/NTCrop/NTCropHelper.swift:15-22 | the y extent of the transformed path starts at point.y and is scale times as tall |
| CropHelper.ScaleBounds | NTKit/NTCrop/NTCropHelper.swift:14-22 | for a positive scale the new bounding box starts at the point and is scale times the old size |
| CropHelper.ScaleByOneTranslates | NTKit/NTCrop/NTCropHelper.swift:15-22 | with scale 1 every vertex is moved by the offset that takes the box's corner to the point, and the box keeps its size |
| CropOverlay.FillsAsWrittenUnique | NTKit/NTCrop/NTCropOverlayView.swift:115-124 | the fill rule determines the scaled size: two sizes satisfying it are equal |
| CropOverlay.FillPositive | NTKit/NTCrop/NTCropOverlayView.swift:115-124 | a positive fill gives a positive scaled width and height |
| CropOverlay.HeightBranchFills | NTKit/NTCrop/NTCropOverlayView.swift:115-117 | the height branch's multipliers give height maxFill times the frame's height and keep the crop's aspect ratio |
| CropOverlay.WidthBranchFills | NTKit/NTCrop/NTCropOverlayView.swift:118-121 | the width branch's multipliers give width maxFill times the frame's width and keep the crop's aspect ratio |
| CropOverlay.ScaledCropSize | NTKit/NTCrop/NTCropOverlayView.swift:108-124 | the computed width and height keep the crop's aspect ratio and fill maxFill of the side the comparison at :115 selects |
| CropOverlay.AsWrittenOverflowsSquare | NTKit/NTCrop/NTCropOverlayView.swift:110-117 | on a square frame, a crop wider than tall gets a width above maxFill times the frame's width |
| CropOverlay.AsWrittenOverflowExample | NTKit/NTCrop/NTCropOverlayView.swift:110-124 | a 200x100 crop on a 100x100 overlay at fill 0.8 is scaled to 160x80, wider than the overlay |
| CropOverlay.IntendedScaledSize | NTKit/NTCrop/NTCropOverlayView.swift:32-35 | the corrected computation satisfies the intended fill rule |
| CropOverlay.IntendedFillFits | NTKit/NTCrop/NTCropOverlayView.swift:32-35 | with the intended rule the scaled crop is within maxFill of the frame on both sides and reaches it on one |
| CropOverlay.ScaledToWidth | NTKit/NTCrop/NTCropOverlayView.swift:125 | scaling to width w a path whose box has the ratio of w x h gives a w x h box at the origin |
| CropOverlay.PlacedPathBounds | NTKit/NTCrop/NTCropOverlayView.swift:140 | a path moved with scale 1 keeps its size and its box starts at the point |
| CropOverlay.CropOverlayView.constructor | NTKit/NTCrop/NTCropOverlayView.swift:35-56 | fill 0.8, no crop path, nothing scaled, oldFrame zero |
| CropOverlay.CropOverlayView.CropRect | NTKit/NTCrop/NTCropOverlayView.swift:41-51 | nil exactly when either scaled side is nil; otherwise the scaled size centred in the frame |
| CropOverlay.CropOverlayView.ScaledPathInFrame | NTKit/NTCrop/NTCropOverlayView.swift:132-141 | nil exactly when one of the three scaled fields is nil; otherwise the scaled path moved, unscaled, to cropRect's origin |
| CropOverlay.CropOverlayView.PointInside | NTKit/NTCrop/NTCropOverlayView.swift:94-96 | the overlay never accepts a touch |
| CropOverlay.CropOverlayView.ScaleCropPath | NTKit/NTCrop/NTCropOverlayView.swift:100-130 | no crop path: all three scaled fields become nil; otherwise the scaled size satisfies the fill rule and the scaled path is the crop path at the origin scaled to that width |
| CropOverlay.CropOverlayView.SetCropPath | NTKit/NTCrop/NTCropOverlayView.swift:61-64 | stores the path and always rescales; a proper frame and box are needed only when the new path is not nil |
| CropOverlay.CropOverlayView.LayoutSubviews | NTKit/NTCrop/NTCropOverlayView.swift:145-152 | rescales only when the frame differs from oldFrame, which it then records; otherwise nothing changes, whatever the frame |
| CropOverlay.ScaledPathAtOrigin | NTKit/NTCrop/NTCropOverlayView.swift:123-125 | after rescaling with a crop path, the scaled path's box is at the origin with size scaledCropWidth x scaledCropHeight |
| CropOverlay.HoleIsCropRect | NTKit/NTCrop/NTCropOverlayView.swift:132-141 | after rescaling, the bounding box of the path drawn in the frame is exactly cropRect |
| Zoom.TargetScale | NTKit/NTImageView/NTImageView.swift:110-120 | the aspect-ratio comparison picks the smaller of the two fit ratios |
| Zoom.TargetFits | NTKit/NTImageView/NTImageView.swift:110-120 | at the target scale the image fits inside the frame and meets it on one side |
| Zoom.TargetLargest | NTKit/NTImageView/NTImageView.swift:110-120 | no zoom larger than the target keeps the image inside the frame |
| Zoom.WidenedBounds | NTKit/NTImageView/NTImageView.swift:122-127 | the bounds only widen; a target already inside leaves them unchanged; with ordered bounds the target ends up inside, at the new extreme if it was outside |
| Zoom.Padding | NTKit/NTImageView/NTImageView.swift:141-142 | padding is never negative; an image that fits is centred by it; an image that overflows gets none |
| Zoom.ConfiguredZoomInBounds | NTKit/NTImageView/NTImageView.swift:122-130 | with ordered defaults the zoom lies within the widened bounds, which contain the defaults |
| Zoom.ConfiguredImageCentred | NTKit/NTImageView/NTImageView.swift:110-148 | after configuring, the zoomed image fits the frame, is centred by the insets on both axes, and touches the frame on one axis |
| Zoom.ImageView.constructor | NTKit/NTImageView/NTImageView.swift:56-64 | defaults 0.5 and 2, no image, constants 0, zoom 1 |
| Zoom.ImageView.ConfigureView | NTKit/NTImageView/NTImageView.swift:73-96 | an empty image view pinned with constants 0, then the default zoom bounds and zoom 1 |
| Zoom.ImageView.ConfigureInitialScale | NTKit/NTImageView/NTImageView.swift:98-134 | no image: default bounds and zoom 1; with an image, zoom is the target, the bounds are widened to include it, and the padding follows |
| Zoom.ImageView.UpdateImageConstraints | NTKit/NTImageView/NTImageView.swift:136-150 | no image: nothing changes; otherwise top = bottom and left = right are the padding at the current zoom |
| Zoom.ImageView.UpdateImageViewFrame | NTKit/NTImageView/NTImageView.swift:152-158 | the image view takes the image's size at the origin; nothing without an image |
| Zoom.ImageView.SetImage | NTKit/NTImageView/NTImageView.swift:36-46 | stores the image in both places; a change of size resets the image view frame and reconfigures the zoom; the same size changes nothing else |
| Zoom.ImageView.LayoutSubviews | NTKit/NTImageView/NTImageView.swift:161-168 | reconfigures only when the frame differs from oldFrame, which it then records |
| Zoom.ImageView.ZoomOut | NTKit/NTImageView/NTImageView.swift:172-174 | the zoom becomes the minimum; nothing else changes |
| Zoom.ImageView.ScrollViewDidZoom | NTKit/NTImageView/NTImageView.swift:182-184 | the padding follows the current zoom |
| Zoom.CropScrollView.constructor | NTKit/NTCrop/NTCropScrollView.swift:56-64 | defaults 0.5 and 2, no image, constants 0, zoom 1 |
| Zoom.CropScrollView.ConfigureView | NTKit/NTCrop/NTCropScrollView.swift:73-96 | an empty image view pinned with constants 0, then the default zoom bounds and zoom 1 |
| Zoom.CropScrollView.ConfigureInitialScale | NTKit/NTCrop/NTCropScrollView.swift:98-134 | no image: default bounds and zoom 1; with an image, zoom is the target, the bounds are widened to include it, and the padding follows |
| Zoom.CropScrollView.UpdateImageConstraints | NTKit/NTCrop/NTCropScrollView.swift:136-150 | no image: nothing changes; otherwise symmetric non-negative padding at the current zoom |
| Zoom.CropScrollView.UpdateImageViewFrame | NTKit/NTCrop/NTCropScrollView.swift:152-158 | the image view takes the image's size at the origin; nothing without an image |
| Zoom.CropScrollView.SetImage | NTKit/NTCrop/NTCropScrollView.swift:36-46 | reconfigures only on a change of image size |
| Zoom.CropScrollView.LayoutSubviews | NTKit/NTCrop/NTCropScrollView.swift:161-168 | reconfigures only when the frame changed, recording it |
| Zoom.CropScrollView.ScrollViewDidZoom | NTKit/NTCrop/NTCropScrollView.swift:176-178 | the padding follows the current zoom |

## Left out

- Rendering: every `apply(onImage:)` body, UIGraphics contexts and the overlay's `drawRect`. Core Graphics is foreign code. A graphics context is modelled only as the list of path commands it receives.
- Font measurement (`calculateTargetNumberOfCharacters`, `calculateFontFor`, `compare`). It depends on text rendering, so the target character count is a parameter.
- Fonts and colours are opaque values.
- BlockText.Change: setting "trailingTargetCharacterThreshold" to a CGFloat passes the `is CGFloat` test and then traps in `as! Float`. Such calls are excluded by a precondition (`CastTraps`) instead of being modelled as a crash.
- BlockText.Uppercased: uppercases ASCII letters only. Unicode case mapping, where the length can change, is not modelled.
- TextLayout.Stalls: a word's length is its number of Unicode scalars, where Swift's `String.count` (NTKit/NTImage/NTImageBlockTextEffect.swift:216-218) counts grapheme clusters. For "e" followed by a combining acute accent and target 1, the model says the word stalls; in the source it is one character and fits.
- TextLayout.BreakStep: compares lengths in Unicode scalars, not grapheme clusters, as `Stalls` does. A word with combining marks can overflow the target here and fit in the source.
- TextLayout.Finish: the trailing threshold test (NTKit/NTImage/NTImageBlockTextEffect.swift:237) is exact real arithmetic here, where the source multiplies in 32-bit Float. With target 300 and threshold 0.33, the source's product rounds to 99.0000076, so a 99-character remainder merges into the last row there and is a row of its own here. Lengths count Unicode scalars.
- BlockText.BlockTextEffect.GenerateTextRowsFromString: inherits the scalar counting of `TextLayout.BreakStep` and the exact threshold of `TextLayout.Finish`. It requires that no word stalls the loop (`NoStall`), because on such a word the source never ends (see Findings). `TextLayout.FixedBreakLine` is the corrected breaker without that precondition.
- BlockText.BlockTextEffect.GenerateTextRows: inherits the scalar counting and exact threshold of `GenerateTextRowsFromString` for every line. It requires `TextBreakable`: no trimmed line holds a word that stalls the loop.
- Animations (`UIView.animateWithDuration`) are modelled as their final state. Auto Layout constraints are modelled as their four constants. `addSubview`, `layoutIfNeeded`, `clipsToBounds` and similar framework calls are not modelled.
- UIScrollView's own clamping of `zoomScale` to the zoom bounds is not modelled. Neither are its delegate wiring or `viewForZooming`.
- The `dispatch_async` call to `setNeedsDisplay` in `scaleCropPath` is main-queue scheduling and is not modelled.
- Division by zero: the floating-point infinities and NaNs of a zero-sized frame, image or crop box are not modelled. The crop and zoom views require positive sides only where the source divides by them: `Measurable` asks for a proper frame and box only when there is a crop path (for the zoom views, an image), and each `LayoutSubviews` asks for it only when the frame changed. A crop overlay built from a zero frame without a crop path is allowed.
- Reals stand for CGFloat, with no rounding.
- A tile's anchor is a constant of the tile. `anchorPoint()` is overridden by the tile subclasses, which read it from their own subviews. Those subclasses, nib loading and touch forwarding are UI glue.
- The data source is modelled as the sequence of tiles it supplies. A negative `numberOfTiles`, which traps in the Swift range, is not representable.
- The older `refreshTiles` calls `layout.layoutTiles(self)`. The older layout does not declare `layoutTiles`, so the model lays the tiles out with its reset, which is the method that lays out all tiles.
- The overlay's `shadeColor` and `configureView` (which sets a background colour) are drawing state and are not modelled.
- NTCropView, the old top-level NTKit/NTImageView.swift, the protocol files and the demo controllers are not modelled. They are wiring and presentation. The protocol contracts hold in the methods' postconditions.
- TileViews.TileView.Valid: requires a set layout to be bound to this very tile view (`layout.tileView == this`). The source's `layout` property (NTKit/NTTileView/NTTileView.swift:38-42) accepts any layout, including one built for another tile view. After `SetLayout` with such a layout, the model's `ReloadTiles`, `ArrangeTiles`, `Focus`, `CollapseAllTiles` and `LayoutSublayers` cannot be called; the source would lay out the other view's tiles.
- The `NSLog` calls in the nil-data-source guards (NTKit/NTTileView/NTTileView.swift:74, NTTileView/NTTileView.swift:69) are console output and are not modelled. The guards' early return is.
- RowFrames.LayOutEqualRows and RowFrames.LayOutFocus: when the same tile occurs twice, its frame is stated only for its last container, the one whose write lasts.

## Findings

| source | as written | input that shows it | evidently intended | confidence | as-written member | corrected member |
|---|---|---|---|---|---|---|
| NTKit/NTImage/NTImageBlockTextEffect.swift:216-221 | on overflow with an empty stringA, the empty stringA is appended when it is closer to the target, and the same word is read again with the same empty state | the line "aaa" with target 1: stringB is 3 characters, the empty stringA is closer, so "" is appended and word 0 is read again, without end | a word too long for a row becomes a row of its own, so the loop ends and no word is dropped (comment at :235) | not executed | TextLayout.StallRepeats | TextLayout.FixedBreakLineWords |
| NTKit/NTCrop/NTCropOverlayView.swift:110-115 | the crop's width/height is compared against the frame's height/width, and the height fills when it is greater | a 100x100 overlay, a 200x100 crop and fill 0.8: the height branch gives 160x80, wider than the overlay | the height fills when the crop's width/height is at most the frame's width/height, so the crop grows until maxFill of one side is reached and never leaves the frame (comment at :32-34) | not executed | CropOverlay.AsWrittenOverflowExample | CropOverlay.IntendedFillFits |

The view class `CropOverlay.CropOverlayView` keeps the comparison as written: `ScaleCropPath`
computes the as-written fill. `CropOverlay.AsWrittenOverflowsSquare` shows the overflow for
every square frame with a crop wider than tall. `CropOverlay.IntendedScaledSize` is the same
computation with the intended comparison, and `CropOverlay.IntendedFillFits` proves the
promise of the comment at :32-34 for it.

The block-text effect keeps the word loop as written too: `GenerateTextRowsFromString` equals
`TextLayout.BreakLine`, which is defined only where no word stalls. `TextLayout.StallRepeats`
shows that a stalling word leaves the loop state unchanged, and `TextLayout.FixedBreaksStallingLine`
shows the line "aaa" with target 1 is such a line. `TextLayout.FixedBreakLine` never emits the
empty row so far. `TextLayout.FixedBreakLineWords` proves that on every line it drops and
reorders no word, and `TextLayout.FixedBreakLineAgrees` proves that it gives the same rows as
the loop as written wherever that loop ends.
