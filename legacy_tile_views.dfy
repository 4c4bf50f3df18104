// The older NTTileView and NTTileViewRowLayout (NTTileView directory). The layout is not bound
// to a tile view but takes one in each call; setting the data source or the layout refreshes
// the tiles; addTile does not record the tile's parent.
module LegacyTileViews {
  import opened Geometry
  import opened RowFrames
  import Options

  /** The older NTTile: its view and anchor (it has a parentTileView that nothing here sets). */
  class Tile {
    const view: View
    const anchor: Point

    constructor (view: View, anchor: Point)
      ensures this.view == view && this.anchor == anchor
    {
      this.view := view;
      this.anchor := anchor;
    }
  }

  function TileViewsOf(tiles: seq<Tile>): (r: seq<View>)
    ensures |r| == |tiles| && forall i :: 0 <= i < |tiles| ==> r[i] == tiles[i].view
  {
    if |tiles| == 0 then [] else [tiles[0].view] + TileViewsOf(tiles[1..])
  }

  function AnchorsOf(tiles: seq<Tile>): (r: seq<Point>)
    ensures |r| == |tiles| && forall i :: 0 <= i < |tiles| ==> r[i] == tiles[i].anchor
  {
    if |tiles| == 0 then [] else [tiles[0].anchor] + AnchorsOf(tiles[1..])
  }

  datatype TileSource = TileSource(supplied: seq<Tile>)

  /** The tiles a data source supplies; none without one. */
  function SuppliedBy(dataSource: Options.Option<TileSource>): seq<Tile>
  {
    if dataSource.Some? then dataSource.value.supplied else []
  }

  datatype LayoutAction = None | Reset | Focus | Collapse

  class TileView {
    var frame: Rect
    var dataSource: Options.Option<TileSource>   // `_dataSource`
    var layout: RowLayout                        // `_layout`
    var tiles: seq<Tile>
    var views: seq<View>

    ghost predicate Valid()
      reads this
    {
      |tiles| == |views| && Separate(views, TileViewsOf(tiles))
    }

    ghost predicate Shows(arrangement: Arrangement)
      reads this, views, TileViewsOf(tiles)
    {
      Arranged(views, TileViewsOf(tiles), AnchorsOf(tiles), arrangement, frame.size)
    }

    function Supplied(): seq<Tile>
      reads this
    {
      SuppliedBy(dataSource)
    }

    /** A new view: no data source, no tiles, the default row layout. */
    constructor (frame: Rect)
      ensures Valid()
      ensures this.frame == frame && dataSource.None? && tiles == [] && views == []
      ensures fresh(layout) && layout.lastAction == None && layout.lastActionIndex == 0
    {
      this.frame := frame;
      dataSource := Options.None;
      layout := new RowLayout();
      tiles := [];
      views := [];
    }

    /** Setting `dataSource` stores it and refreshes the tiles. */
    method SetDataSource(newValue: Options.Option<TileSource>)
      requires Valid()
      modifies this, layout, SuppliedBy(newValue), TileViewsOf(SuppliedBy(newValue))
      ensures dataSource == newValue && layout == old(layout)
      ensures newValue.Some? ==> tiles == newValue.value.supplied && |views| == |tiles|
      ensures newValue.Some? ==> layout.lastAction == Reset && Shows(EqualRows)
      ensures newValue.None? ==> tiles == old(tiles) && views == old(views) && unchanged(layout)
      ensures Valid()
    {
      dataSource := newValue;
      RefreshTiles();
    }

    /** Setting `layout` stores it and refreshes the tiles with it. */
    method SetLayout(newValue: RowLayout)
      requires Valid()
      modifies this, newValue, Supplied(), TileViewsOf(Supplied())
      ensures layout == newValue && dataSource == old(dataSource)
      ensures dataSource.Some? ==> tiles == Supplied() && layout.lastAction == Reset && Shows(EqualRows)
      ensures dataSource.None? ==> tiles == old(tiles) && views == old(views) && unchanged(newValue)
      ensures Valid()
    {
      layout := newValue;
      RefreshTiles();
    }

    /** addTile(_:): one new container; both arrays grow by one in lockstep. */
    method AddTile(tile: Tile)
      requires Valid()
      requires tile.view !in views
      modifies this
      ensures Valid()
      ensures tiles == old(tiles) + [tile]
      ensures |views| == |old(views)| + 1 && views[..|old(views)|] == old(views)
      ensures fresh(views[|old(views)|])
      ensures frame == old(frame) && dataSource == old(dataSource) && layout == old(layout)
    {
      var newView := new View(ZeroRect);
      views := views + [newView];
      tiles := tiles + [tile];
    }

    /**
     * refreshTiles(): without a data source nothing changes; otherwise the supplied tiles,
     * each in a new container, laid out by the layout. The older source asks the layout to
     * `layoutTiles`, which it does not declare; its reset is what lays out all tiles.
     */
    method RefreshTiles()
      requires Valid()
      modifies this, layout, Supplied(), TileViewsOf(Supplied())
      ensures Valid()
      ensures frame == old(frame) && dataSource == old(dataSource) && layout == old(layout)
      ensures old(dataSource).None? ==> unchanged(this) && unchanged(layout)
      ensures old(dataSource).Some? ==>
        && tiles == old(Supplied())
        && |views| == |tiles|
        && (forall i :: 0 <= i < |views| ==> fresh(views[i]))
        && layout.lastAction == Reset
        && Shows(EqualRows)
    {
      if dataSource.None? {
        return;
      }
      AddTiles(dataSource.value.supplied);
      layout.ResetTileLayout(this);
    }

    /** The loop of refreshTiles(): the arrays start empty and each supplied tile is added in order. */
    method AddTiles(supplied: seq<Tile>)
      requires Valid()
      modifies this
      ensures Valid()
      ensures tiles == supplied && |views| == |tiles|
      ensures forall i :: 0 <= i < |views| ==> fresh(views[i])
      ensures frame == old(frame) && dataSource == old(dataSource) && layout == old(layout)
    {
      tiles := [];
      views := [];
      for i := 0 to |supplied|
        invariant Valid()
        invariant tiles == supplied[..i] && |views| == i
        invariant forall k :: 0 <= k < i ==> fresh(views[k])
        invariant frame == old(frame) && dataSource == old(dataSource) && layout == old(layout)
      {
        assert supplied[..i + 1] == supplied[..i] + [supplied[i]];
        AddTile(supplied[i]);
      }
      assert supplied[..|supplied|] == supplied;
    }
  }

  class RowLayout {
    var lastAction: LayoutAction
    var lastActionIndex: int

    constructor ()
      ensures lastAction == None && lastActionIndex == 0
    {
      lastAction := None;
      lastActionIndex := 0;
    }

    function Replayed(): Arrangement
      reads this
    {
      if lastAction == Focus then Focused(lastActionIndex) else EqualRows
    }

    /** resetTileLayout(_:): records Reset; equal rows in the given tile view. */
    method ResetTileLayout(tileView: TileView)
      requires tileView.Valid()
      modifies this, tileView.views, TileViewsOf(tileView.tiles)
      ensures lastAction == Reset && lastActionIndex == old(lastActionIndex)
      ensures tileView.Shows(EqualRows)
    {
      lastAction := Reset;
      LayOutEqualRows(tileView.views, TileViewsOf(tileView.tiles), AnchorsOf(tileView.tiles), tileView.frame.size);
    }

    /** focus(_:onTileWithIndex:): records Focus and the index; the focused row takes the whole height. */
    method FocusOnTile(tileView: TileView, tileIndex: int)
      requires tileView.Valid()
      modifies this, tileView.views, TileViewsOf(tileView.tiles)
      ensures lastAction == Focus && lastActionIndex == tileIndex
      ensures tileView.Shows(Focused(tileIndex))
    {
      lastAction := Focus;
      lastActionIndex := tileIndex;
      LayOutFocus(tileView.views, TileViewsOf(tileView.tiles), AnchorsOf(tileView.tiles), tileIndex, tileView.frame.size);
    }

    /** collapseAll(_:): records Collapse; the same equal rows as a reset. */
    method CollapseAll(tileView: TileView)
      requires tileView.Valid()
      modifies this, tileView.views, TileViewsOf(tileView.tiles)
      ensures lastAction == Collapse && lastActionIndex == old(lastActionIndex)
      ensures tileView.Shows(EqualRows)
    {
      lastAction := Collapse;
      LayOutEqualRows(tileView.views, TileViewsOf(tileView.tiles), AnchorsOf(tileView.tiles), tileView.frame.size);
    }

    /** updateForFrame(_:): replays the recorded action on the given tile view; None does nothing. */
    method UpdateForFrame(tileView: TileView)
      requires tileView.Valid()
      modifies this, tileView.views, TileViewsOf(tileView.tiles)
      ensures lastAction == old(lastAction) && lastActionIndex == old(lastActionIndex)
      ensures lastAction == None ==> unchanged(tileView.views) && unchanged(TileViewsOf(tileView.tiles))
      ensures lastAction != None ==> tileView.Shows(Replayed())
    {
      match lastAction
      case Reset => ResetTileLayout(tileView);
      case Collapse => CollapseAll(tileView);
      case Focus => FocusOnTile(tileView, lastActionIndex);
      case None =>
    }
  }
}
