/** Watermark anchors and the placement of a watermark on a background
    (imagist/imagist.go:29-36, 101-107, 313-349). */
module Anchors {

  // Anchor constants. The source numbers them with iota, so Center is one
  // value shared by the horizontal and the vertical axis.
  const Left: int := 0
  const Right: int := 1
  const Top: int := 2
  const Bottom: int := 3
  const Center: int := 4

  /** The value held by a WatermarkPosition: one anchor per axis (any int; the
      placement switch decides what unknown values mean) and the two offsets. */
  datatype Position = Position(horizontal: int, vertical: int, offsetX: int, offsetY: int)

  /** An image's bounds: the Min corner and the size (Dx, Dy). */
  datatype Rect = Rect(minX: int, minY: int, width: nat, height: nat)

  datatype Point = Point(x: int, y: int)

  predicate KnownHorizontal(h: int) { h == Left || h == Right || h == Center }

  predicate KnownVertical(v: int) { v == Top || v == Bottom || v == Center }

  /** The position after the placement switch has run: an unknown horizontal
      anchor becomes Left, an unknown vertical one Top, offsets are kept. */
  function Normalized(p: Position): (q: Position)
  {
    p.(horizontal := if KnownHorizontal(p.horizontal) then p.horizontal else Left,
       vertical := if KnownVertical(p.vertical) then p.vertical else Top)
  }

  /** x of the watermark's top-left corner. Left (and every unknown anchor)
      counts from 0, not from bg.minX; Right and Center count from bg.minX. */
  function PlaceX(p: Position, bg: Rect, markWidth: nat): (x: int)
  {
    if p.horizontal == Right then bg.minX + bg.width - markWidth - p.offsetX
    else if p.horizontal == Center then bg.minX + bg.width / 2 - markWidth / 2 + p.offsetX
    else p.offsetX
  }

  /** y of the watermark's top-left corner, the same rules on the vertical axis. */
  function PlaceY(p: Position, bg: Rect, markHeight: nat): (y: int)
  {
    if p.vertical == Bottom then bg.minY + bg.height - markHeight - p.offsetY
    else if p.vertical == Center then bg.minY + bg.height / 2 - markHeight / 2 + p.offsetY
    else p.offsetY
  }

  /** The point at which a markWidth x markHeight watermark is overlaid on bg. */
  function Placement(p: Position, bg: Rect, markWidth: nat, markHeight: nat): (pt: Point)
  {
    Point(PlaceX(p, bg, markWidth), PlaceY(p, bg, markHeight))
  }

  /** A watermark position shared by pointer between format entries (and with
      the package's preset positions); placing a watermark writes the
      normalised anchors back into it. */
  class WatermarkPosition {
    var horizontal: int
    var vertical: int
    var offsetX: int
    var offsetY: int

    constructor (p: Position)
      ensures Value() == p
    {
      horizontal, vertical := p.horizontal, p.vertical;
      offsetX, offsetY := p.offsetX, p.offsetY;
    }

    function Value(): (p: Position)
      reads this
    {
      Position(horizontal, vertical, offsetX, offsetY)
    }

    /** The two anchor switches of imageProcess: the point starts at the
        origin and each axis either accumulates its offset (Left, Top) or is
        assigned from the background and watermark sizes; an unknown anchor
        is rewritten in this object and then treated as Left / Top. */
    method Place(bg: Rect, markWidth: nat, markHeight: nat) returns (pos: Point)
      modifies this
      ensures pos == Placement(old(Value()), bg, markWidth, markHeight)
      ensures Value() == Normalized(old(Value()))
    {
      pos := Point(0, 0);

      if horizontal == Right {
        var rightX := bg.minX + bg.width - markWidth;
        pos := pos.(x := rightX - offsetX);
      } else if horizontal == Center {
        var centerX := bg.minX + bg.width / 2;
        pos := pos.(x := centerX - markWidth / 2 + offsetX);
      } else {
        if horizontal != Left {
          horizontal := Left;
        }
        pos := pos.(x := pos.x + offsetX);
      }

      if vertical == Bottom {
        var bottomY := bg.minY + bg.height - markHeight;
        pos := pos.(y := bottomY - offsetY);
      } else if vertical == Center {
        var centerY := bg.minY + bg.height / 2;
        pos := pos.(y := centerY - markHeight / 2 + offsetY);
      } else {
        if vertical != Top {
          vertical := Top;
        }
        pos := pos.(y := pos.y + offsetY);
      }
    }
  }

  /** Normalising twice is normalising once. */
  lemma NormalizedIdempotent(p: Position)
    ensures Normalized(Normalized(p)) == Normalized(p)
  {
  }

  /** Normalising is idempotent and does not move the watermark, so running the
      switch again on a position it has already rewritten gives the same point. */
  lemma NormalizedPlacesAlike(p: Position, bg: Rect, markWidth: nat, markHeight: nat)
    ensures Normalized(Normalized(p)) == Normalized(p)
    ensures KnownHorizontal(Normalized(p).horizontal) && KnownVertical(Normalized(p).vertical)
    ensures Placement(Normalized(p), bg, markWidth, markHeight) == Placement(p, bg, markWidth, markHeight)
  {
  }

  /** An unknown anchor, including Top or Bottom on the horizontal axis and
      Left or Right on the vertical one, is placed exactly as Left / Top. */
  lemma UnknownAnchorsActAsLeftTop(p: Position, bg: Rect, markWidth: nat, markHeight: nat)
    requires !KnownHorizontal(p.horizontal) && !KnownVertical(p.vertical)
    ensures Placement(p, bg, markWidth, markHeight) == Point(p.offsetX, p.offsetY)
    ensures Normalized(p) == Position(Left, Top, p.offsetX, p.offsetY)
  {
  }

  /** Right / Bottom: the watermark's far edge sits exactly OffsetX / OffsetY
      pixels inside the background's far edge. */
  lemma FarAnchorsKeepOffsetFromEdge(p: Position, bg: Rect, markWidth: nat, markHeight: nat)
    requires p.horizontal == Right && p.vertical == Bottom
    ensures var pt := Placement(p, bg, markWidth, markHeight);
      (bg.minX + bg.width) - (pt.x + markWidth) == p.offsetX &&
      (bg.minY + bg.height) - (pt.y + markHeight) == p.offsetY
  {
  }

  /** Center with zero offset: the margins left and right of the watermark
      (above and below it) differ by at most one pixel. */
  lemma CenterAnchorBalancesMargins(p: Position, bg: Rect, markWidth: nat, markHeight: nat)
    requires p.horizontal == Center && p.vertical == Center && p.offsetX == 0 && p.offsetY == 0
    ensures var pt := Placement(p, bg, markWidth, markHeight);
      var left, right := pt.x - bg.minX, bg.minX + bg.width - (pt.x + markWidth);
      var above, below := pt.y - bg.minY, bg.minY + bg.height - (pt.y + markHeight);
      -1 <= left - right <= 1 && -1 <= above - below <= 1
  {
  }

  /** With zero offsets, a watermark no larger than a background at the origin
      is placed entirely inside it, whatever the anchors. */
  lemma ZeroOffsetsStayInside(p: Position, bg: Rect, markWidth: nat, markHeight: nat)
    requires bg.minX == 0 && bg.minY == 0 && p.offsetX == 0 && p.offsetY == 0
    requires markWidth <= bg.width && markHeight <= bg.height
    ensures var pt := Placement(p, bg, markWidth, markHeight);
      0 <= pt.x && pt.x + markWidth <= bg.width && 0 <= pt.y && pt.y + markHeight <= bg.height
  {
  }

  /** The two worked placements: a 20x10 watermark on a 200x100 background. */
  lemma WorkedPlacements()
    ensures Placement(Position(Right, Bottom, 5, 5), Rect(0, 0, 200, 100), 20, 10) == Point(175, 85)
    ensures Placement(Position(Center, Center, 0, 0), Rect(0, 0, 200, 100), 20, 10) == Point(90, 45)
  {
  }
}
