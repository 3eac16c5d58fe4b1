/** The CGRect helpers of Sources/Extensions/CGRect.swift, over exact reals.
    Every helper returns a modified copy; nothing is shared or mutated. */
module Geometry {

  datatype Point = Point(x: real, y: real)
  datatype Size = Size(width: real, height: real)
  datatype Rect = Rect(origin: Point, size: Size)
  datatype EdgeInsets = EdgeInsets(top: real, left: real, bottom: real, right: real)

  /** CGRect(x:y:width:height:) */
  function MakeRect(x: real, y: real, width: real, height: real): Rect {
    Rect(Point(x, y), Size(width, height))
  }

  // ---- absolute dimensions (CGRectGetMinX & co., which standardise the rect) ----

  function MinX(r: Rect): (v: real)
    ensures v <= r.origin.x && v <= r.origin.x + r.size.width
    ensures v == r.origin.x || v == r.origin.x + r.size.width
  {
    if r.size.width >= 0.0 then r.origin.x else r.origin.x + r.size.width
  }

  function Width(r: Rect): (v: real)
    ensures v >= 0.0
    ensures v == r.size.width || v == -r.size.width
  {
    if r.size.width >= 0.0 then r.size.width else -r.size.width
  }

  function MaxX(r: Rect): (v: real)
    ensures v >= r.origin.x && v >= r.origin.x + r.size.width
    ensures v == MinX(r) + Width(r)
  {
    if r.size.width >= 0.0 then r.origin.x + r.size.width else r.origin.x
  }

  function MidX(r: Rect): (v: real)
    ensures v == (MinX(r) + MaxX(r)) / 2.0
  {
    r.origin.x + r.size.width / 2.0
  }

  function MinY(r: Rect): (v: real)
    ensures v <= r.origin.y && v <= r.origin.y + r.size.height
    ensures v == r.origin.y || v == r.origin.y + r.size.height
  {
    if r.size.height >= 0.0 then r.origin.y else r.origin.y + r.size.height
  }

  function Height(r: Rect): (v: real)
    ensures v >= 0.0
    ensures v == r.size.height || v == -r.size.height
  {
    if r.size.height >= 0.0 then r.size.height else -r.size.height
  }

  function MaxY(r: Rect): (v: real)
    ensures v >= r.origin.y && v >= r.origin.y + r.size.height
    ensures v == MinY(r) + Height(r)
  {
    if r.size.height >= 0.0 then r.origin.y + r.size.height else r.origin.y
  }

  function MidY(r: Rect): (v: real)
    ensures v == (MinY(r) + MaxY(r)) / 2.0
  {
    r.origin.y + r.size.height / 2.0
  }

  /** For a rect whose size is not negative the absolute dimensions are the
      stored ones: the edges are the origin and the origin plus the size. */
  lemma NonNegativeDimensions(r: Rect)
    requires r.size.width >= 0.0 && r.size.height >= 0.0
    ensures MinX(r) == r.origin.x && Width(r) == r.size.width
    ensures MaxX(r) == MinX(r) + Width(r) && MidX(r) == MinX(r) + Width(r) / 2.0
    ensures MinY(r) == r.origin.y && Height(r) == r.size.height
    ensures MaxY(r) == MinY(r) + Height(r) && MidY(r) == MinY(r) + Height(r) / 2.0
  {
  }

  // ---- dimension setters ----

  function AtOrigin(r: Rect, amt: Point): (q: Rect)
    ensures q.origin == amt && q.size == r.size
  {
    r.(origin := amt)
  }

  function WithSize(r: Rect, amt: Size): (q: Rect)
    ensures q.size == amt && q.origin == r.origin
  {
    r.(size := amt)
  }

  function AtX(r: Rect, amt: real): (q: Rect)
    ensures q.origin.x == amt
    ensures q.origin.y == r.origin.y && q.size == r.size
  {
    r.(origin := r.origin.(x := amt))
  }

  function AtY(r: Rect, amt: real): (q: Rect)
    ensures q.origin.y == amt
    ensures q.origin.x == r.origin.x && q.size == r.size
  {
    r.(origin := r.origin.(y := amt))
  }

  function WithWidth(r: Rect, amt: real): (q: Rect)
    ensures q.size.width == amt
    ensures q.size.height == r.size.height && q.origin == r.origin
  {
    r.(size := r.size.(width := amt))
  }

  function WithHeight(r: Rect, amt: real): (q: Rect)
    ensures q.size.height == amt
    ensures q.size.width == r.size.width && q.origin == r.origin
  {
    r.(size := r.size.(height := amt))
  }

  // ---- insets ----

  /** UIEdgeInsetsInsetRect: each edge of the rect moves inwards by its inset
      (outwards for a negative inset). */
  function InsetRect(r: Rect, insets: EdgeInsets): (q: Rect)
    ensures q.origin.x == r.origin.x + insets.left
    ensures q.origin.y == r.origin.y + insets.top
    ensures q.origin.x + q.size.width == r.origin.x + r.size.width - insets.right
    ensures q.origin.y + q.size.height == r.origin.y + r.size.height - insets.bottom
  {
    Rect(Point(r.origin.x + insets.left, r.origin.y + insets.top),
         Size(r.size.width - (insets.left + insets.right),
              r.size.height - (insets.top + insets.bottom)))
  }

  function InsetAll(r: Rect, all: real): (q: Rect)
    ensures q.origin == Point(r.origin.x + all, r.origin.y + all)
    ensures q.size == Size(r.size.width - 2.0 * all, r.size.height - 2.0 * all)
  {
    InsetRect(r, EdgeInsets(all, all, all, all))
  }

  function InsetTopBottomSides(r: Rect, topBottom: real, sides: real): (q: Rect)
    ensures q.origin == Point(r.origin.x + sides, r.origin.y + topBottom)
    ensures q.size == Size(r.size.width - 2.0 * sides, r.size.height - 2.0 * topBottom)
  {
    InsetRect(r, EdgeInsets(topBottom, sides, topBottom, sides))
  }

  function InsetTopSidesBottom(r: Rect, top: real, sides: real, bottom: real): (q: Rect)
    ensures q.origin == Point(r.origin.x + sides, r.origin.y + top)
    ensures q.size == Size(r.size.width - 2.0 * sides, r.size.height - (top + bottom))
  {
    InsetRect(r, EdgeInsets(top, sides, bottom, sides))
  }

  function InsetEdges(r: Rect, top: real, left: real, bottom: real, right: real): (q: Rect)
    ensures q == InsetRect(r, EdgeInsets(top, left, bottom, right))
    ensures q.size == Size(r.size.width - (left + right), r.size.height - (top + bottom))
  {
    InsetRect(r, EdgeInsets(top, left, bottom, right))
  }

  // ---- shrinkXxx: one edge moves inwards, the opposite edge stays ----

  function ShrinkLeft(r: Rect, amt: real): (q: Rect)
    ensures q.origin.x == r.origin.x + amt && q.size.width == r.size.width - amt
    ensures q.origin.y == r.origin.y && q.size.height == r.size.height
  {
    InsetRect(r, EdgeInsets(0.0, amt, 0.0, 0.0))
  }

  function ShrinkRight(r: Rect, amt: real): (q: Rect)
    ensures q.size.width == r.size.width - amt
    ensures q.origin == r.origin && q.size.height == r.size.height
  {
    InsetRect(r, EdgeInsets(0.0, 0.0, 0.0, amt))
  }

  function ShrinkDown(r: Rect, amt: real): (q: Rect)
    ensures q.origin.y == r.origin.y + amt && q.size.height == r.size.height - amt
    ensures q.origin.x == r.origin.x && q.size.width == r.size.width
  {
    InsetRect(r, EdgeInsets(amt, 0.0, 0.0, 0.0))
  }

  function ShrinkUp(r: Rect, amt: real): (q: Rect)
    ensures q.size.height == r.size.height - amt
    ensures q.origin == r.origin && q.size.width == r.size.width
  {
    InsetRect(r, EdgeInsets(0.0, 0.0, amt, 0.0))
  }

  // ---- growXxx: the shrink with the opposite amount ----

  function GrowLeft(r: Rect, amt: real): (q: Rect)
    ensures q == ShrinkLeft(r, -amt)
    ensures q.origin.x == r.origin.x - amt && q.size.width == r.size.width + amt
  {
    InsetRect(r, EdgeInsets(0.0, -amt, 0.0, 0.0))
  }

  function GrowRight(r: Rect, amt: real): (q: Rect)
    ensures q == ShrinkRight(r, -amt)
    ensures q.origin == r.origin && q.size.width == r.size.width + amt
  {
    InsetRect(r, EdgeInsets(0.0, 0.0, 0.0, -amt))
  }

  function GrowDown(r: Rect, amt: real): (q: Rect)
    ensures q == ShrinkDown(r, -amt)
    ensures q.origin.y == r.origin.y - amt && q.size.height == r.size.height + amt
  {
    InsetRect(r, EdgeInsets(-amt, 0.0, 0.0, 0.0))
  }

  function GrowUp(r: Rect, amt: real): (q: Rect)
    ensures q == ShrinkUp(r, -amt)
    ensures q.origin == r.origin && q.size.height == r.size.height + amt
  {
    InsetRect(r, EdgeInsets(0.0, 0.0, -amt, 0.0))
  }

  /** Growing an edge by an amount and then shrinking it by the same amount
      gives back the rect. */
  lemma GrowThenShrink(r: Rect, amt: real)
    ensures ShrinkLeft(GrowLeft(r, amt), amt) == r
    ensures ShrinkRight(GrowRight(r, amt), amt) == r
    ensures ShrinkDown(GrowDown(r, amt), amt) == r
    ensures ShrinkUp(GrowUp(r, amt), amt) == r
  {
  }

  // ---- fromXxx: a zero-thickness slice along one edge ----

  function FromTop(r: Rect): (q: Rect)
    ensures q.size.height == 0.0 && q.origin.y == MinY(r)
    ensures q.origin.x == MinX(r) && q.size.width == Width(r)
  {
    MakeRect(MinX(r), MinY(r), Width(r), 0.0)
  }

  function FromBottom(r: Rect): (q: Rect)
    ensures q.size.height == 0.0 && q.origin.y == MaxY(r)
    ensures q.origin.x == MinX(r) && q.size.width == Width(r)
  {
    MakeRect(MinX(r), MaxY(r), Width(r), 0.0)
  }

  function FromLeft(r: Rect): (q: Rect)
    ensures q.size.width == 0.0 && q.origin.x == MinX(r)
    ensures q.origin.y == MinY(r) && q.size.height == Height(r)
  {
    MakeRect(MinX(r), MinY(r), 0.0, Height(r))
  }

  function FromRight(r: Rect): (q: Rect)
    ensures q.size.width == 0.0 && q.origin.x == MaxX(r)
    ensures q.origin.y == MinY(r) && q.size.height == Height(r)
  {
    MakeRect(MaxX(r), MinY(r), 0.0, Height(r))
  }

  /** The top and bottom slices span the rect's full width and lie one
      height apart; the left and right slices likewise one width apart. */
  lemma SlicesBoundTheRect(r: Rect)
    ensures FromBottom(r).origin.y - FromTop(r).origin.y == Height(r)
    ensures FromRight(r).origin.x - FromLeft(r).origin.x == Width(r)
    ensures MaxX(FromTop(r)) == MaxX(r) && MaxY(FromLeft(r)) == MaxY(r)
  {
  }

  // ---- shiftXxx: move the origin, keep the size ----

  function ShiftUp(r: Rect, amt: real): (q: Rect)
    ensures q.origin == Point(r.origin.x, r.origin.y - amt) && q.size == r.size
  {
    AtY(r, r.origin.y - amt)
  }

  function ShiftDown(r: Rect, amt: real): (q: Rect)
    ensures q.origin == Point(r.origin.x, r.origin.y + amt) && q.size == r.size
  {
    AtY(r, r.origin.y + amt)
  }

  function ShiftLeft(r: Rect, amt: real): (q: Rect)
    ensures q.origin == Point(r.origin.x - amt, r.origin.y) && q.size == r.size
  {
    AtX(r, r.origin.x - amt)
  }

  function ShiftRight(r: Rect, amt: real): (q: Rect)
    ensures q.origin == Point(r.origin.x + amt, r.origin.y) && q.size == r.size
  {
    AtX(r, r.origin.x + amt)
  }

  /** A shift followed by the opposite shift of the same amount is the identity. */
  lemma ShiftRoundTrips(r: Rect, amt: real)
    ensures ShiftUp(ShiftDown(r, amt), amt) == r
    ensures ShiftDown(ShiftUp(r, amt), amt) == r
    ensures ShiftLeft(ShiftRight(r, amt), amt) == r
    ensures ShiftRight(ShiftLeft(r, amt), amt) == r
  {
  }
}
