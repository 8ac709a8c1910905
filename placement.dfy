// Placement resolution of a popup (the `match self.placement` block that runs
// when an Open message is handled).
module Placements {
  import opened Geometry

  /** Where a popup goes when it opens. */
  datatype Placement =
    | LeftTop
    | RightTop
    | Center
    | LeftBottom
    | RightBottom
    | Cursor
    | Position(position: Vec2)

  /** The placements that anchor the popup to the screen rather than to a point. */
  predicate ScreenAnchored(p: Placement)
  {
    !p.Cursor? && !p.Position?
  }

  /** What each placement means, stated by which edges of the popup (at `pos`,
      of extent `size`) meet which edges of the screen (of extent `screen`):
      a left edge at 0, a right edge at the screen width, equal margins for
      Center; Cursor and Position pin the popup's corner to a point. */
  ghost predicate Aligned(p: Placement, pos: Vec2, size: Vec2, screen: Vec2, cursor: Vec2)
  {
    match p
    case LeftTop => pos.x == 0.0 && pos.y == 0.0
    case RightTop => pos.x + size.x == screen.x && pos.y == 0.0
    case Center =>
      pos.x == screen.x - (pos.x + size.x) &&
      pos.y == screen.y - (pos.y + size.y)
    case LeftBottom => pos.x == 0.0 && pos.y + size.y == screen.y
    case RightBottom => pos.x + size.x == screen.x && pos.y + size.y == screen.y
    case Cursor => pos == cursor
    case Position(q) => pos == q
  }

  /** The desired local position of a popup of actual size `size` on a screen
      of size `screen`, with the cursor at `cursor`. */
  function DesiredPosition(p: Placement, size: Vec2, screen: Vec2, cursor: Vec2): (pos: Vec2)
    ensures Aligned(p, pos, size, screen, cursor)
  {
    match p
    case LeftTop => Zero
    case RightTop => Vec2(screen.x - size.x, 0.0)
    case Center => Scale(Sub(screen, size), 0.5)
    case LeftBottom => Vec2(0.0, screen.y - size.y)
    case RightBottom => Sub(screen, size)
    case Cursor => cursor
    case Position(q) => q
  }

  /** The alignment constraints leave exactly one position. */
  lemma AlignedIsUnique(p: Placement, a: Vec2, b: Vec2, size: Vec2, screen: Vec2, cursor: Vec2)
    requires Aligned(p, a, size, screen, cursor) && Aligned(p, b, size, screen, cursor)
    ensures a == b
  {
  }

  /** A popup no larger than the screen, placed at a screen anchor, lies
      entirely on the screen. */
  lemma AnchoredPopupFitsOnScreen(p: Placement, size: Vec2, screen: Vec2, cursor: Vec2)
    requires ScreenAnchored(p)
    requires 0.0 <= size.x <= screen.x && 0.0 <= size.y <= screen.y
    ensures var pos := DesiredPosition(p, size, screen, cursor);
      0.0 <= pos.x && pos.x + size.x <= screen.x &&
      0.0 <= pos.y && pos.y + size.y <= screen.y
  {
  }

  /** Center lies halfway between the LeftTop and RightBottom positions, and
      the corner placements share their coordinates pairwise. */
  lemma CornersAndCenterAgree(size: Vec2, screen: Vec2, cursor: Vec2)
    ensures var lt := DesiredPosition(LeftTop, size, screen, cursor);
      var rt := DesiredPosition(RightTop, size, screen, cursor);
      var lb := DesiredPosition(LeftBottom, size, screen, cursor);
      var rb := DesiredPosition(RightBottom, size, screen, cursor);
      DesiredPosition(Center, size, screen, cursor) == Scale(Add(lt, rb), 0.5) &&
      rt == Vec2(rb.x, lt.y) && lb == Vec2(lt.x, rb.y)
  {
  }

  /** Worked example: an 800x600 screen and a 100x50 popup. */
  lemma WorkedExample(cursor: Vec2, q: Vec2)
    ensures var size, screen := Vec2(100.0, 50.0), Vec2(800.0, 600.0);
      DesiredPosition(LeftTop, size, screen, cursor) == Vec2(0.0, 0.0) &&
      DesiredPosition(RightTop, size, screen, cursor) == Vec2(700.0, 0.0) &&
      DesiredPosition(Center, size, screen, cursor) == Vec2(350.0, 275.0) &&
      DesiredPosition(LeftBottom, size, screen, cursor) == Vec2(0.0, 550.0) &&
      DesiredPosition(RightBottom, size, screen, cursor) == Vec2(700.0, 550.0) &&
      DesiredPosition(Cursor, size, screen, cursor) == cursor &&
      DesiredPosition(Position(q), size, screen, cursor) == q
  {
  }
}
