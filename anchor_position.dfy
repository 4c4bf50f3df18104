// NTImageEffectAnchorPosition: where an effect's anchor point sits on the drawn block.
module AnchorPositions {

  datatype AnchorPosition =
    | Center        // dead centre
    | CenterLeft    // vertically centred, left aligned
    | CenterRight   // vertically centred, right aligned
    | CenterTop     // horizontally centred, top aligned
    | CenterBottom  // horizontally centred, bottom aligned
    | TopLeft
    | TopRight
    | BottomLeft
    | BottomRight

  datatype Horizontal = Left | HCenter | Right
  datatype Vertical = Top | VCenter | Bottom

  /** The horizontal alignment each case names. */
  function HorizontalOf(p: AnchorPosition): Horizontal
  {
    match p
    case CenterLeft | TopLeft | BottomLeft => Left
    case CenterRight | TopRight | BottomRight => Right
    case Center | CenterTop | CenterBottom => HCenter
  }

  /** The vertical alignment each case names. */
  function VerticalOf(p: AnchorPosition): Vertical
  {
    match p
    case CenterTop | TopLeft | TopRight => Top
    case CenterBottom | BottomLeft | BottomRight => Bottom
    case Center | CenterLeft | CenterRight => VCenter
  }

  /** The case with the given horizontal and vertical alignment; every combination has one. */
  function PositionOf(h: Horizontal, v: Vertical): (p: AnchorPosition)
    ensures HorizontalOf(p) == h && VerticalOf(p) == v
  {
    match (h, v)
    case (Left, Top) => TopLeft
    case (Left, VCenter) => CenterLeft
    case (Left, Bottom) => BottomLeft
    case (HCenter, Top) => CenterTop
    case (HCenter, VCenter) => Center
    case (HCenter, Bottom) => CenterBottom
    case (Right, Top) => TopRight
    case (Right, VCenter) => CenterRight
    case (Right, Bottom) => BottomRight
  }

  /**
   * The nine cases are exactly the nine combinations of a horizontal and a vertical
   * alignment: each case is the one `PositionOf` gives for its own alignments (so every
   * combination is some case, by `PositionOf`'s contract), and no two cases share one.
   */
  lemma AlignmentsDetermineCase(p: AnchorPosition, q: AnchorPosition)
    ensures PositionOf(HorizontalOf(p), VerticalOf(p)) == p
    ensures HorizontalOf(p) == HorizontalOf(q) && VerticalOf(p) == VerticalOf(q) ==> p == q
  {
  }

  /** Fraction of the block's width that lies left of the anchor. */
  function HFraction(h: Horizontal): real
  {
    match h
    case Left => 0.0
    case HCenter => 0.5
    case Right => 1.0
  }

  /** Fraction of the block's height that lies above the anchor. */
  function VFraction(v: Vertical): real
  {
    match v
    case Top => 0.0
    case VCenter => 0.5
    case Bottom => 1.0
  }
}
