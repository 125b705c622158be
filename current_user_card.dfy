/**
 * `CurrentUserCard`: the local user's card in the chat room, dragged by
 * the pointer and snapped on every move.  A press on one of its control
 * buttons is a click, not a drag.
 */
module CurrentUserCard {
  import opened DragGeometry

  class Card {
    var position: Point
    var isDragging: bool
    /** `dragOffset.current`: where the pointer was relative to the card at the press. */
    var dragOffset: Point

    /** The first render: near the bottom-left corner, idle. */
    constructor (innerHeight: real)
      ensures position == Point(20.0, innerHeight - 500.0)
      ensures !isDragging && dragOffset == Point(0.0, 0.0)
    {
      position := Point(20.0, innerHeight - 500.0);
      isDragging := false;
      dragOffset := Point(0.0, 0.0);
    }

    /**
     * A mouse or touch press: ignored on a control button; otherwise the
     * pointer's offset from the card's position is kept and dragging starts.
     */
    method PointerDown(pointer: Point, onControlButton: bool)
      modifies this`isDragging, this`dragOffset
      ensures onControlButton ==> isDragging == old(isDragging) && dragOffset == old(dragOffset)
      ensures !onControlButton ==> isDragging && dragOffset == Minus(pointer, position)
    {
      if onControlButton {
        return;
      }
      dragOffset := Minus(pointer, position);
      isDragging := true;
    }

    /**
     * A move: ignored unless dragging; otherwise the card goes to the
     * pointer minus the offset, clamped and snapped.
     */
    method PointerMove(pointer: Point, innerWidth: real, innerHeight: real)
      modifies this`position
      ensures !isDragging ==> position == old(position)
      ensures isDragging ==>
        && position.x == LateSnapAxis(Clamp(0.0, innerWidth * 0.7 - 280.0, pointer.x - dragOffset.x), innerWidth * 0.7 - 280.0)
        && position.y == LateSnapAxis(Clamp(0.0, innerHeight - 280.0, pointer.y - dragOffset.y), innerHeight - 280.0)
      ensures isDragging && 280.0 <= innerWidth * 0.7 && 280.0 <= innerHeight ==>
        0.0 <= position.x <= innerWidth * 0.7 - 280.0 && 0.0 <= position.y <= innerHeight - 280.0
    {
      if !isDragging {
        return;
      }
      position := DragMove(Minus(pointer, dragOffset), innerWidth, innerHeight);
    }

    /** Mouse up or touch end: dragging stops where the card is. */
    method PointerUp()
      modifies this`isDragging
      ensures !isDragging
    {
      isDragging := false;
    }
  }

  /**
   * A press and a move put the card where the pointer's displacement says:
   * with the window's room and a target that stays the threshold away from
   * every edge, the card moves by exactly the pointer's displacement.
   */
  lemma FollowsThePointer(position: Point, press: Point, pointer: Point, innerWidth: real, innerHeight: real)
    requires var target := Minus(pointer, Minus(press, position));
             && SnapThreshold <= target.x <= innerWidth * 0.7 - 280.0 - SnapThreshold
             && SnapThreshold <= target.y <= innerHeight - 280.0 - SnapThreshold
    ensures var target := Minus(pointer, Minus(press, position));
            && LateSnapAxis(Clamp(0.0, innerWidth * 0.7 - 280.0, target.x), innerWidth * 0.7 - 280.0)
               == position.x + (pointer.x - press.x)
            && LateSnapAxis(Clamp(0.0, innerHeight - 280.0, target.y), innerHeight - 280.0)
               == position.y + (pointer.y - press.y)
  {
  }
}
