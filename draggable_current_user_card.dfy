/**
 * `DraggableCurrentUserCard`: the local user's card that moves freely
 * inside the users area while dragged and snaps to a near edge only when
 * released.  A press installs the move and release listeners; a release
 * removes them.
 */
module DraggableCurrentUserCard {
  import opened DragGeometry

  class Card {
    var position: Point
    var isDragging: bool
    var isNearEdge: bool
    /** `dragOffset.current`: the pointer's offset inside the card at the press. */
    var dragOffset: Point
    /** Whether the document-level move and release listeners are installed. */
    var listening: bool

    /** The first render: near the bottom-left corner, idle. */
    constructor (innerHeight: real)
      ensures position == Point(20.0, innerHeight - 320.0)
      ensures !isDragging && !isNearEdge && !listening && dragOffset == Point(0.0, 0.0)
    {
      position := Point(20.0, innerHeight - 320.0);
      isDragging, isNearEdge, listening := false, false, false;
      dragOffset := Point(0.0, 0.0);
    }

    /** A mouse or touch press at `pointer` on the card whose box starts at `rectOrigin`. */
    method PointerDown(pointer: Point, rectOrigin: Point)
      modifies this`isDragging, this`dragOffset, this`listening
      ensures isDragging && listening
      ensures dragOffset == Minus(pointer, rectOrigin)
    {
      isDragging := true;
      dragOffset := Minus(pointer, rectOrigin);
      listening := true;
    }

    /**
     * A move while the listeners are installed: the card goes to the
     * pointer minus the offset, clamped to the boundaries, and the edge
     * hint is recomputed there; no snapping happens yet.
     */
    method PointerMove(pointer: Point, innerWidth: real, innerHeight: real)
      modifies this`position, this`isNearEdge
      ensures !listening ==> position == old(position) && isNearEdge == old(isNearEdge)
      ensures listening ==>
        && position == ClampPoint(GetBoundaries(innerWidth, innerHeight), Minus(pointer, dragOffset))
        && isNearEdge == NearEdge(GetBoundaries(innerWidth, innerHeight), position)
      ensures listening && 280.0 <= innerWidth * 0.7 && 280.0 <= innerHeight ==>
        0.0 <= position.x <= innerWidth * 0.7 - 280.0 && 0.0 <= position.y <= innerHeight - 280.0
    {
      if !listening {
        return;
      }
      var boundaries := GetBoundaries(innerWidth, innerHeight);
      var raw := Minus(pointer, dragOffset);
      var p := ClampPoint(boundaries, raw);
      isNearEdge := NearEdge(boundaries, p);
      position := p;
    }

    /**
     * The release: dragging and the edge hint end, the latest position is
     * snapped to the edges, and the listeners are removed.
     */
    method PointerUp(innerWidth: real, innerHeight: real)
      modifies this`position, this`isDragging, this`isNearEdge, this`listening
      ensures !old(listening) ==> unchanged(this)
      ensures old(listening) ==>
        && !isDragging && !isNearEdge && !listening
        && position == SnapToEdge(GetBoundaries(innerWidth, innerHeight), old(position))
    {
      if !listening {
        return;
      }
      isDragging := false;
      isNearEdge := false;
      position := SnapToEdge(GetBoundaries(innerWidth, innerHeight), position);
      listening := false;
    }
  }
}
