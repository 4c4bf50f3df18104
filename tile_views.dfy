// NTTileView and NTTileViewRowLayout (NTKit/NTTileView): a tile view holds its tiles and the
// container views they sit in, in lockstep; its row layout stacks the containers and records
// the last action so that a frame change can replay it.
module TileViews {
  import opened Geometry
  import opened RowFrames
  import Options

  /** An NTTile: its own view, the anchor point the layout centres, and the tile view it belongs to. */
  class Tile {
    const view: View
    const anchor: Point
    var parentTileView: TileView?

    constructor (view: View, anchor: Point)
      ensures this.view == view && this.anchor == anchor && parentTileView == null
    {
      this.view := view;
      this.anchor := anchor;
      parentTileView := null;
    }
  }

  function TileViewsOf(tiles: seq<Tile>): (r: seq<View>)
    ensures |r| == |tiles| && forall i :: 0 <= i < |tiles| ==> r[i] == tiles[i].view
  {
    if |tiles| == 0 then [] else [tiles[0].view] + TileViewsOf(tiles[1..])
  }

  function AnchorsOf(tiles: seq<Tile>): (r: seq<Point>)
    ensures |r| == |tiles| && forall i :: 0 <= i < |tiles| ==> r[i] == tiles[i].anchor
  {
    if |tiles| == 0 then [] else [tiles[0].anchor] + AnchorsOf(tiles[1..])
  }

  /** An NTTileViewDataSource: `numberOfTiles` is |supplied| and `tileAt(i)` is supplied[i]. */
  datatype TileSource = TileSource(supplied: seq<Tile>)

  /** NTTileViewRowLayout.LayoutActions */
  datatype LayoutAction = None | Reset | Focus | Collapse

  class TileView {
    var frame: Rect
    var dataSource: Options.Option<TileSource>
    var layout: RowLayout?
    var tiles: seq<Tile>
    var views: seq<View>

    /** `tiles` and `views` in lockstep, the containers distinct, and the layout bound to this view. */
    ghost predicate Valid()
      reads this
    {
      && |tiles| == |views|
      && Separate(views, TileViewsOf(tiles))
      && (layout != null ==> layout.tileView == this)
    }

    /** The views show `arrangement` for this view's current frame. */
    ghost predicate Shows(arrangement: Arrangement)
      reads this, views, TileViewsOf(tiles)
    {
      Arranged(views, TileViewsOf(tiles), AnchorsOf(tiles), arrangement, frame.size)
    }

    /** The tiles the data source supplies; none without a data source. */
    function Supplied(): seq<Tile>
      reads this
    {
      if dataSource.Some? then dataSource.value.supplied else []
    }

    /** init(frame:), which runs configureView() and so installs a row layout bound to this view. */
    constructor (frame: Rect)
      ensures Valid()
      ensures this.frame == frame && dataSource.None? && tiles == [] && views == []
      ensures layout != null && fresh(layout) && layout.lastAction == None && layout.lastActionIndex == 0
    {
      this.frame := frame;
      dataSource := Options.None;
      layout := null;
      tiles := [];
      views := [];
      new;
      ConfigureView();
    }

    /** configureView() */
    method ConfigureView()
      modifies this
      ensures layout != null && fresh(layout) && layout.tileView == this
      ensures layout.lastAction == None && layout.lastActionIndex == 0
      ensures frame == old(frame) && dataSource == old(dataSource)
      ensures tiles == old(tiles) && views == old(views)
    {
      layout := new RowLayout(this);
    }

    /** Setting `dataSource`: its didSet does nothing, so no reload happens. */
    method SetDataSource(newValue: Options.Option<TileSource>)
      modifies this
      ensures dataSource == newValue
      ensures frame == old(frame) && layout == old(layout) && tiles == old(tiles) && views == old(views)
    {
      dataSource := newValue;
    }

    /** Setting `layout`: its didSet does nothing either. */
    method SetLayout(newValue: RowLayout?)
      modifies this
      ensures layout == newValue
      ensures frame == old(frame) && dataSource == old(dataSource) && tiles == old(tiles) && views == old(views)
    {
      layout := newValue;
    }

    /**
     * addTile(_:): one new container for the tile; both arrays grow by one in lockstep and
     * the tile learns its tile view.
     */
    method AddTile(tile: Tile)
      requires Valid()
      requires tile.view !in views
      modifies this, tile
      ensures Valid()
      ensures tiles == old(tiles) + [tile]
      ensures |views| == |old(views)| + 1 && views[..|old(views)|] == old(views)
      ensures fresh(views[|old(views)|])
      ensures tile.parentTileView == this
      ensures frame == old(frame) && dataSource == old(dataSource) && layout == old(layout)
    {
      var newView := new View(ZeroRect);
      tile.parentTileView := this;
      views := views + [newView];
      tiles := tiles + [tile];
    }

    /**
     * reloadTiles(): without a data source nothing changes; otherwise the tiles become exactly
     * the supplied ones, each in a new container, each pointing back at this view, and the
     * layout (if any) is reset.
     */
    method ReloadTiles()
      requires Valid()
      modifies this, layout, Supplied(), TileViewsOf(Supplied())
      ensures Valid()
      ensures old(dataSource).None? ==> unchanged(this)
      ensures old(dataSource).None? && layout != null ==> unchanged(layout)
      ensures old(dataSource).Some? ==>
        && tiles == old(Supplied())
        && |views| == |tiles|
        && (forall i :: 0 <= i < |views| ==> fresh(views[i]))
        && (forall i :: 0 <= i < |tiles| ==> tiles[i].parentTileView == this)
        && (layout != null ==> layout.lastAction == Reset && Shows(EqualRows))
      ensures frame == old(frame) && dataSource == old(dataSource) && layout == old(layout)
    {
      if dataSource.None? {
        return;
      }
      AddTiles(dataSource.value.supplied);
      ArrangeTiles();
    }

    /**
     * The loop of reloadTiles(): the arrays start empty and each supplied tile is added in
     * order, so each gets a new container and points back at this view.
     */
    method AddTiles(supplied: seq<Tile>)
      requires Valid()
      modifies this, supplied
      ensures Valid()
      ensures tiles == supplied && |views| == |tiles|
      ensures forall i :: 0 <= i < |views| ==> fresh(views[i])
      ensures forall i :: 0 <= i < |tiles| ==> tiles[i].parentTileView == this
      ensures frame == old(frame) && dataSource == old(dataSource) && layout == old(layout)
    {
      tiles := [];
      views := [];
      for i := 0 to |supplied|
        invariant Valid()
        invariant tiles == supplied[..i] && |views| == i
        invariant forall k :: 0 <= k < i ==> fresh(views[k])
        invariant forall k :: 0 <= k < i ==> tiles[k].parentTileView == this
        invariant frame == old(frame) && dataSource == old(dataSource) && layout == old(layout)
      {
        assert supplied[..i + 1] == supplied[..i] + [supplied[i]];
        AddTile(supplied[i]);
      }
      assert supplied[..|supplied|] == supplied;
    }

    /** arrangeTiles(): resets the layout, if there is one. */
    method ArrangeTiles()
      requires Valid()
      modifies layout, views, TileViewsOf(tiles)
      ensures layout == null ==> unchanged(views) && unchanged(TileViewsOf(tiles))
      ensures layout != null ==> layout.lastAction == Reset && layout.lastActionIndex == old(layout.lastActionIndex)
      ensures layout != null ==> Shows(EqualRows)
    {
      if layout != null {
        layout.ResetTileLayout();
      }
    }

    /** focus(onTileWithIndex:): forwarded to the layout; nothing happens without one. */
    method Focus(tileIndex: int)
      requires Valid()
      modifies layout, views, TileViewsOf(tiles)
      ensures layout == null ==> unchanged(views) && unchanged(TileViewsOf(tiles))
      ensures layout != null ==>
        layout.lastAction == LayoutAction.Focus && layout.lastActionIndex == tileIndex && Shows(Focused(tileIndex))
    {
      if layout != null {
        layout.FocusOnTile(tileIndex);
      }
    }

    /** collapseAllTiles(): forwarded to the layout; nothing happens without one. */
    method CollapseAllTiles()
      requires Valid()
      modifies layout, views, TileViewsOf(tiles)
      ensures layout == null ==> unchanged(views) && unchanged(TileViewsOf(tiles))
      ensures layout != null ==> layout.lastAction == Collapse && Shows(EqualRows)
    {
      if layout != null {
        layout.CollapseAll();
      }
    }

    /** layoutSublayers(of:): a frame change makes the layout replay its last action. */
    method LayoutSublayers()
      requires Valid()
      modifies layout, views, TileViewsOf(tiles)
      ensures layout == null ==> unchanged(views) && unchanged(TileViewsOf(tiles))
      ensures layout != null ==> layout.lastAction == old(layout.lastAction)
      ensures layout != null ==> layout.lastActionIndex == old(layout.lastActionIndex)
      ensures layout != null && layout.lastAction == None ==> unchanged(views) && unchanged(TileViewsOf(tiles))
      ensures layout != null && layout.lastAction != None ==> Shows(layout.Replayed())
    {
      if layout != null {
        layout.UpdateForFrame();
      }
    }

    /** getTileIndex(withTile:): the first index holding this very tile, or None. */
    method GetTileIndex(tile: Tile) returns (r: Options.Option<nat>)
      ensures r.Some? ==> r.value < |tiles| && tiles[r.value] == tile
      ensures r.Some? ==> forall j :: 0 <= j < r.value ==> tiles[j] != tile
      ensures r.None? <==> tile !in tiles
    {
      for i := 0 to |tiles|
        invariant tile !in tiles[..i]
      {
        if tiles[i] == tile {
          return Options.Some(i);
        }
        assert tiles[..i + 1] == tiles[..i] + [tiles[i]];
      }
      assert tiles[..|tiles|] == tiles;
      return Options.None;
    }
  }

  class RowLayout {
    const tileView: TileView
    var lastAction: LayoutAction
    var lastActionIndex: int

    /** init(tileView:) */
    constructor (tileView: TileView)
      ensures this.tileView == tileView && lastAction == None && lastActionIndex == 0
    {
      this.tileView := tileView;
      lastAction := None;
      lastActionIndex := 0;
    }

    /** The arrangement updateForFrame() puts back for a recorded action. */
    function Replayed(): Arrangement
      reads this
    {
      if lastAction == Focus then Focused(lastActionIndex) else EqualRows
    }

    /** resetTileLayout(): records Reset; equal rows. */
    method ResetTileLayout()
      requires tileView.Valid()
      modifies this, tileView.views, TileViewsOf(tileView.tiles)
      ensures lastAction == Reset && lastActionIndex == old(lastActionIndex)
      ensures tileView.Shows(EqualRows)
    {
      lastAction := Reset;
      LayOutEqualRows(tileView.views, TileViewsOf(tileView.tiles), AnchorsOf(tileView.tiles), tileView.frame.size);
    }

    /** focus(onTileWithIndex:): records Focus and the index; the focused row takes the whole height. */
    method FocusOnTile(tileIndex: int)
      requires tileView.Valid()
      modifies this, tileView.views, TileViewsOf(tileView.tiles)
      ensures lastAction == Focus && lastActionIndex == tileIndex
      ensures tileView.Shows(Focused(tileIndex))
    {
      lastAction := Focus;
      lastActionIndex := tileIndex;
      LayOutFocus(tileView.views, TileViewsOf(tileView.tiles), AnchorsOf(tileView.tiles), tileIndex, tileView.frame.size);
    }

    /** collapseAll(): records Collapse; the same equal rows as a reset. */
    method CollapseAll()
      requires tileView.Valid()
      modifies this, tileView.views, TileViewsOf(tileView.tiles)
      ensures lastAction == Collapse && lastActionIndex == old(lastActionIndex)
      ensures tileView.Shows(EqualRows)
    {
      lastAction := Collapse;
      LayOutEqualRows(tileView.views, TileViewsOf(tileView.tiles), AnchorsOf(tileView.tiles), tileView.frame.size);
    }

    /** updateForFrame(): replays the recorded action with the recorded index; None does nothing. */
    method UpdateForFrame()
      requires tileView.Valid()
      modifies this, tileView.views, TileViewsOf(tileView.tiles)
      ensures lastAction == old(lastAction) && lastActionIndex == old(lastActionIndex)
      ensures lastAction == None ==> unchanged(tileView.views) && unchanged(TileViewsOf(tileView.tiles))
      ensures lastAction != None ==> tileView.Shows(Replayed())
    {
      match lastAction
      case Reset => ResetTileLayout();
      case Collapse => CollapseAll();
      case Focus => FocusOnTile(lastActionIndex);
      case None =>
    }
  }
}
