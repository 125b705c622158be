/**
 * `DragGeometry`: the clamp-and-snap arithmetic shared by the draggable
 * user cards.  A 280 x 280 card moves inside the users area, the left 70%
 * of the window, and snaps to an edge it comes within 50 pixels of.
 *
 * Coordinates are `real`; the browser's floating-point rounding is not
 * modelled.
 */
module DragGeometry {

  const CardSize: real := 280.0
  const SnapThreshold: real := 50.0

  datatype Point = Point(x: real, y: real)

  /** `pointer - origin`, coordinate by coordinate. */
  function Minus(p: Point, q: Point): Point
  {
    Point(p.x - q.x, p.y - q.y)
  }

  datatype Boundaries = Boundaries(minX: real, maxX: real, minY: real, maxY: real)

  /**
   * `getBoundaries`: the top-left corner of the card may go from the
   * window's top-left corner to 280 short of the users area's right edge
   * and of the window's bottom.
   */
  function GetBoundaries(innerWidth: real, innerHeight: real): (b: Boundaries)
    ensures b.minX == 0.0 && b.minY == 0.0
    ensures b.maxX + CardSize == innerWidth * 0.7
    ensures b.maxY + CardSize == innerHeight
  {
    Boundaries(0.0, innerWidth * 0.7 - CardSize, 0.0, innerHeight - CardSize)
  }

  function Max(a: real, b: real): real { if a >= b then a else b }
  function Min(a: real, b: real): real { if a <= b then a else b }

  /**
   * `Math.max(lo, Math.min(hi, v))`: within `[lo, hi]` whenever that range
   * is not empty, never below `lo`, and `v` itself when it already fits.
   */
  function Clamp(lo: real, hi: real, v: real): (r: real)
    ensures lo <= r
    ensures lo <= hi ==> r <= hi
    ensures lo <= v <= hi ==> r == v
    ensures v < lo ==> r == lo
    ensures lo <= hi < v ==> r == hi
    ensures hi < lo ==> r == lo
  {
    Max(lo, Min(hi, v))
  }

  /** Clamps both coordinates of a raw position. */
  function ClampPoint(b: Boundaries, raw: Point): (p: Point)
    ensures b.minX <= b.maxX ==> b.minX <= p.x <= b.maxX
    ensures b.minY <= b.maxY ==> b.minY <= p.y <= b.maxY
  {
    Point(Clamp(b.minX, b.maxX, raw.x), Clamp(b.minY, b.maxY, raw.y))
  }

  /** Within the snap threshold of at least one of the four boundaries. */
  predicate NearEdge(b: Boundaries, p: Point)
  {
    || p.x <= b.minX + SnapThreshold
    || p.x >= b.maxX - SnapThreshold
    || p.y <= b.minY + SnapThreshold
    || p.y >= b.maxY - SnapThreshold
  }

  /**
   * One axis of `snapToEdge`: within the threshold of the low edge goes to
   * it, otherwise within the threshold of the high edge goes to that one;
   * the low edge is tested first and wins.
   */
  function SnapAxis(v: real, lo: real, hi: real): (r: real)
    ensures r == v || r == lo || r == hi
    ensures v <= lo + SnapThreshold ==> r == lo
    ensures lo + SnapThreshold < v && hi - SnapThreshold <= v ==> r == hi
    ensures lo + SnapThreshold < v < hi - SnapThreshold ==> r == v
  {
    if v <= lo + SnapThreshold then lo
    else if v >= hi - SnapThreshold then hi
    else v
  }

  /**
   * `snapToEdge`: each coordinate snapped on its own axis; a point that is
   * not near any edge is left where it is.
   */
  function SnapToEdge(b: Boundaries, p: Point): (r: Point)
    ensures !NearEdge(b, p) ==> r == p
    ensures r != p ==> NearEdge(b, p)
  {
    Point(SnapAxis(p.x, b.minX, b.maxX), SnapAxis(p.y, b.minY, b.maxY))
  }

  /**
   * Snapping an axis a second time changes nothing for every position
   * exactly when the range is wider than the threshold or is a single
   * point: otherwise a position past the threshold goes to the high edge,
   * which is itself near the low edge.
   */
  lemma SnapAxisIdempotentIff(lo: real, hi: real)
    ensures (forall v :: SnapAxis(SnapAxis(v, lo, hi), lo, hi) == SnapAxis(v, lo, hi))
        <==> hi > lo + SnapThreshold || hi == lo
  {
    if !(hi > lo + SnapThreshold || hi == lo) {
      var v := lo + SnapThreshold + 1.0;
      assert SnapAxis(v, lo, hi) == hi;
      assert SnapAxis(hi, lo, hi) == lo;
    }
  }

  /** `snapToEdge` is idempotent on a window where the card has room to move. */
  lemma SnapToEdgeIdempotent(b: Boundaries, p: Point)
    requires b.maxX > b.minX + SnapThreshold && b.maxY > b.minY + SnapThreshold
    ensures SnapToEdge(b, SnapToEdge(b, p)) == SnapToEdge(b, p)
  {
    SnapAxisIdempotentIff(b.minX, b.maxX);
    SnapAxisIdempotentIff(b.minY, b.maxY);
  }

  /**
   * The snap of the move handlers, on one axis with the low edge at 0:
   * below the threshold goes to 0, and then, tested on the updated value,
   * beyond `hi - 50` goes to `hi`; the high edge wins when both apply.  The
   * result is an edge or keeps the threshold's distance from both edges,
   * and on a clamped coordinate it stays within `[0, hi]`.
   */
  function LateSnapAxis(v: real, hi: real): (r: real)
    ensures r == v || r == 0.0 || r == hi
    ensures r == 0.0 || r == hi || SnapThreshold <= r <= hi - SnapThreshold
    ensures 0.0 <= v <= hi ==> 0.0 <= r <= hi
    ensures v < SnapThreshold && hi >= SnapThreshold ==> r == 0.0
    ensures (if v < SnapThreshold then 0.0 else v) > hi - SnapThreshold ==> r == hi
    ensures SnapThreshold <= v <= hi - SnapThreshold ==> r == v
  {
    var afterLow := if v < SnapThreshold then 0.0 else v;
    if afterLow > hi - SnapThreshold then hi else afterLow
  }

  /**
   * The two snaps disagree: on a window narrower than the threshold every
   * clamped position goes to the low edge under `SnapAxis` but to the high
   * edge under `LateSnapAxis`, and at exactly the threshold on a wide
   * window `SnapAxis` snaps while `LateSnapAxis` does not.
   */
  lemma SnapPrecedenceDiffers(hi: real)
    ensures 0.0 < hi < SnapThreshold ==>
      forall v :: 0.0 <= v <= hi ==> SnapAxis(v, 0.0, hi) == 0.0 && LateSnapAxis(v, hi) == hi != 0.0
    ensures hi >= 2.0 * SnapThreshold ==>
      SnapAxis(SnapThreshold, 0.0, hi) == 0.0 && LateSnapAxis(SnapThreshold, hi) == SnapThreshold
  {
  }

  /**
   * The move step of the cards that snap while dragging: the target is
   * clamped into `[0, maxX] x [0, maxY]`, then `finalX` and `finalY` are
   * snapped low edge first and high edge second.
   */
  method DragMove(target: Point, innerWidth: real, innerHeight: real) returns (p: Point)
    ensures var maxX := innerWidth * 0.7 - CardSize;
            p.x == LateSnapAxis(Clamp(0.0, maxX, target.x), maxX)
    ensures var maxY := innerHeight - CardSize;
            p.y == LateSnapAxis(Clamp(0.0, maxY, target.y), maxY)
    ensures 0.0 <= innerWidth * 0.7 - CardSize ==> 0.0 <= p.x <= innerWidth * 0.7 - CardSize
    ensures 0.0 <= innerHeight - CardSize ==> 0.0 <= p.y <= innerHeight - CardSize
  {
    var userAreaWidth := innerWidth * 0.7;
    var maxX := userAreaWidth - CardSize;
    var maxY := innerHeight - CardSize;
    var finalX := Max(0.0, Min(target.x, maxX));
    var finalY := Max(0.0, Min(target.y, maxY));
    if finalX < SnapThreshold {
      finalX := 0.0;
    }
    if finalX > maxX - SnapThreshold {
      finalX := maxX;
    }
    if finalY < SnapThreshold {
      finalY := 0.0;
    }
    if finalY > maxY - SnapThreshold {
      finalY := maxY;
    }
    p := Point(finalX, finalY);
  }
}
