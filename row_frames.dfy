// The frame arithmetic shared by both row layouts (NTTileViewRowLayout in NTKit/NTTileView and
// its older copy in NTTileView): equal stacked rows, one focused row, and the centring of a
// tile's anchor in its container view. The loops that assign the frames are here too, over
// the container views and the tiles' own views.
module RowFrames {
  import opened Geometry

  /** A UIView as far as the layouts use it: a frame that can be reassigned. */
  class View {
    var frame: Rect

    constructor (frame: Rect)
      ensures this.frame == frame
    {
      this.frame := frame;
    }
  }

  /** The two arrangements a row layout produces. */
  datatype Arrangement =
    | EqualRows            // resetTileLayout and collapseAll
    | Focused(index: int)  // focus(onTileWithIndex:)

  /** Row `index` of `count` equal rows spanning a tile view of the given size. */
  function EqualRowFrame(index: nat, count: nat, size: Size): Rect
    requires index < count
  {
    var tileHeight := size.height / count as real;
    MakeRect(0.0, index as real * tileHeight, size.width, tileHeight)
  }

  /** The height the focus loop gives row `index`: everything for the focused row, nothing for the rest. */
  function FocusHeight(index: nat, focused: int, height: real): real
  {
    if index == focused then height else 0.0
  }

  /** The focus loop's heightCounter before row `index`: the sum of the earlier rows' heights. */
  function FocusY(index: nat, focused: int, height: real): real
  {
    if index == 0 then 0.0 else FocusY(index - 1, focused, height) + FocusHeight(index - 1, focused, height)
  }

  function FocusFrame(index: nat, focused: int, size: Size): Rect
  {
    MakeRect(0.0, FocusY(index, focused, size.height), size.width, FocusHeight(index, focused, size.height))
  }

  /** The frame of container `index` of `count` under an arrangement. */
  function RowFrame(arrangement: Arrangement, index: nat, count: nat, size: Size): Rect
    requires index < count
  {
    match arrangement
    case EqualRows => EqualRowFrame(index, count, size)
    case Focused(focused) => FocusFrame(index, focused, size)
  }

  /**
   * position(_:inView:): the frame of a tile's view inside its container. The tile view is
   * as large as the whole tile view and placed so that its anchor lands on the container's centre.
   */
  function PositionFrame(anchor: Point, container: Rect, size: Size): (r: Rect)
    ensures r.origin.x + anchor.x == container.size.width / 2.0
    ensures r.origin.y + anchor.y == container.size.height / 2.0
    ensures r.size == size
  {
    var viewCenter := container.Mid();
    var newX := viewCenter.x - anchor.x - container.origin.x;
    var newY := viewCenter.y - anchor.y - container.origin.y;
    MakeRect(newX, newY, size.width, size.height)
  }

  // ---------------------------------------------------------------------------
  // What the arithmetic gives

  /** Equal rows: each is full width and 1/count of the height; they start at the top, touch, and end at the bottom. */
  lemma EqualRowsStack(count: nat, size: Size)
    requires count > 0
    ensures forall i :: 0 <= i < count ==>
      EqualRowFrame(i, count, size).size == Size(size.width, size.height / count as real)
      && EqualRowFrame(i, count, size).origin.x == 0.0
    ensures EqualRowFrame(0, count, size).origin.y == 0.0
    ensures forall i :: 0 <= i < count - 1 ==>
      EqualRowFrame(i, count, size).origin.y + EqualRowFrame(i, count, size).size.height
        == EqualRowFrame(i + 1, count, size).origin.y
    ensures EqualRowFrame(count - 1, count, size).origin.y + EqualRowFrame(count - 1, count, size).size.height
              == size.height
  {
    var t := size.height / count as real;
    forall i | 0 <= i < count - 1
      ensures EqualRowFrame(i, count, size).origin.y + t == EqualRowFrame(i + 1, count, size).origin.y
    {
      assert i as real * t + t == (i + 1) as real * t;
    }
    assert (count - 1) as real * t + t == count as real * t;
    assert count as real * t == size.height;
  }

  /** The running sum in closed form: the focused row's height once it has been passed, 0 before. */
  lemma {:induction false} FocusYClosedForm(index: nat, focused: int, height: real)
    ensures FocusY(index, focused, height) == if 0 <= focused < index then height else 0.0
  {
    if index > 0 {
      FocusYClosedForm(index - 1, focused, height);
    }
  }

  /**
   * Focus: the focused row spans the full height at y = 0; every other row has height 0,
   * at y = 0 before it and y = height after it; rows touch.
   */
  lemma FocusRowsStack(count: nat, focused: int, size: Size)
    ensures forall i :: 0 <= i < count ==>
      && FocusFrame(i, focused, size).origin.x == 0.0
      && FocusFrame(i, focused, size).size.width == size.width
      && FocusFrame(i, focused, size).size.height == (if i == focused then size.height else 0.0)
      && FocusFrame(i, focused, size).origin.y == (if 0 <= focused < i then size.height else 0.0)
    ensures forall i :: 0 <= i < count - 1 ==>
      FocusFrame(i, focused, size).origin.y + FocusFrame(i, focused, size).size.height
        == FocusFrame(i + 1, focused, size).origin.y
  {
    forall i | 0 <= i < count
      ensures FocusFrame(i, focused, size).origin.y == (if 0 <= focused < i then size.height else 0.0)
    {
      FocusYClosedForm(i, focused, size.height);
    }
  }

  // ---------------------------------------------------------------------------
  // Frames of the views

  /** No two containers are the same view, and no container is a tile's view. */
  predicate Separate(views: seq<View>, tileViews: seq<View>)
  {
    && (forall i, j :: 0 <= i < j < |views| ==> views[i] != views[j])
    && (forall i, j :: 0 <= i < |views| && 0 <= j < |tileViews| ==> views[i] != tileViews[j])
  }

  /** No later tile among the first `upTo` shares tile `i`'s view (which the later write would reposition). */
  predicate LastBefore(tileViews: seq<View>, i: nat, upTo: nat)
    requires i < upTo <= |tileViews|
  {
    forall j :: i < j < upTo ==> tileViews[j] != tileViews[i]
  }

  /**
   * The containers have the arrangement's frames, and each tile view (at its last
   * occurrence) sits centred on its anchor in its container.
   */
  ghost predicate Arranged(views: seq<View>, tileViews: seq<View>, anchors: seq<Point>,
                           arrangement: Arrangement, size: Size)
    reads views, tileViews
  {
    && |views| == |tileViews| == |anchors|
    && (forall i :: 0 <= i < |views| ==> views[i].frame == RowFrame(arrangement, i, |views|, size))
    && (forall i :: 0 <= i < |views| && LastBefore(tileViews, i, |views|) ==>
          tileViews[i].frame == PositionFrame(anchors[i], RowFrame(arrangement, i, |views|, size), size))
  }

  /** position(_:inView:) */
  method Position(tileView: View, anchor: Point, container: View, size: Size)
    modifies tileView
    ensures tileView.frame == PositionFrame(anchor, old(container.frame), size)
  {
    var viewCenter := Point(container.frame.Mid().x, container.frame.Mid().y);
    var newX := viewCenter.x - anchor.x - container.frame.origin.x;
    var newY := viewCenter.y - anchor.y - container.frame.origin.y;
    tileView.frame := MakeRect(newX, newY, size.width, size.height);
  }

  /** The first `upTo` containers and their tile views are arranged. */
  ghost predicate ArrangedUpTo(views: seq<View>, tileViews: seq<View>, anchors: seq<Point>,
                               arrangement: Arrangement, size: Size, upTo: nat)
    requires |views| == |tileViews| == |anchors| && upTo <= |views|
    reads views, tileViews
  {
    && (forall k :: 0 <= k < upTo ==> views[k].frame == RowFrame(arrangement, k, |views|, size))
    && (forall k :: 0 <= k < upTo && LastBefore(tileViews, k, upTo) ==>
          tileViews[k].frame == PositionFrame(anchors[k], RowFrame(arrangement, k, |views|, size), size))
  }

  /** One iteration of either loop: the container gets its row frame and its tile is positioned in it. */
  method PlaceRow(views: seq<View>, tileViews: seq<View>, anchors: seq<Point>,
                  arrangement: Arrangement, index: nat, frame: Rect, size: Size)
    requires |views| == |tileViews| == |anchors| && index < |views|
    requires Separate(views, tileViews)
    requires frame == RowFrame(arrangement, index, |views|, size)
    requires ArrangedUpTo(views, tileViews, anchors, arrangement, size, index)
    modifies views[index], tileViews[index]
    ensures ArrangedUpTo(views, tileViews, anchors, arrangement, size, index + 1)
  {
    views[index].frame := frame;
    Position(tileViews[index], anchors[index], views[index], size);
  }

  /** The loop of resetTileLayout and collapseAll: equal rows, each tile positioned in its row. */
  method LayOutEqualRows(views: seq<View>, tileViews: seq<View>, anchors: seq<Point>, size: Size)
    requires |views| == |tileViews| == |anchors|
    requires Separate(views, tileViews)
    modifies views, tileViews
    ensures Arranged(views, tileViews, anchors, EqualRows, size)
  {
    // an empty loop when there are no tiles: the height is not used then
    var tileHeight := if |views| == 0 then 0.0 else size.height / |views| as real;
    for index := 0 to |views|
      invariant ArrangedUpTo(views, tileViews, anchors, EqualRows, size, index)
    {
      PlaceRow(views, tileViews, anchors, EqualRows, index,
               MakeRect(0.0, index as real * tileHeight, size.width, tileHeight), size);
    }
  }

  /** The loop of focus(onTileWithIndex:), with its running heightCounter. */
  method LayOutFocus(views: seq<View>, tileViews: seq<View>, anchors: seq<Point>, tileIndex: int, size: Size)
    requires |views| == |tileViews| == |anchors|
    requires Separate(views, tileViews)
    modifies views, tileViews
    ensures Arranged(views, tileViews, anchors, Focused(tileIndex), size)
  {
    var expandedTileHeight := size.height;
    var collapsedTileHeight := 0.0;
    var heightCounter := 0.0;
    for index := 0 to |views|
      invariant heightCounter == FocusY(index, tileIndex, size.height)
      invariant ArrangedUpTo(views, tileViews, anchors, Focused(tileIndex), size, index)
    {
      var height := if index == tileIndex then expandedTileHeight else collapsedTileHeight;
      PlaceRow(views, tileViews, anchors, Focused(tileIndex), index,
               MakeRect(0.0, heightCounter, size.width, height), size);
      heightCounter := heightCounter + height;
    }
  }
}
