/**
 * `UserCard`: a user's card in the video call area.  Only the local
 * user's card can be dragged; every move computes a snapped position and
 * schedules it for the next animation frame, which applies the pending
 * positions in order.
 */
module UserCard {
  import opened Wrappers
  import opened DragGeometry

  /** The first `position` state: a point near the bottom-left corner for the local user's card, `null` otherwise. */
  function InitialPosition(isCurrentUser: bool, innerHeight: real): (p: Option<Point>)
    ensures p.Some? <==> isCurrentUser
    ensures p.Some? ==> p.value.x == 20.0 && p.value.y == innerHeight - 500.0
  {
    if isCurrentUser then Some(Point(20.0, innerHeight - 500.0)) else None
  }

  /** The values of a press handler's dependency list; a missing coordinate is `undefined`. */
  datatype Dependencies = Dependencies(isCurrentUser: bool, x: Option<real>, y: Option<real>)

  /**
   * The dependency list of the mouse and touch press handlers as written,
   * `[isCurrentUser, position.x, position.y]`, evaluated on every render:
   * reading `x` of a `null` position throws, which is `None` here.
   */
  function DependenciesAsWritten(isCurrentUser: bool, position: Option<Point>): (r: Option<Dependencies>)
    ensures r.None? <==> position.None?
    ensures r.Some? ==> r.value.x == Some(position.value.x) && r.value.y == Some(position.value.y)
  {
    match position
    case None => None
    case Some(p) => Some(Dependencies(isCurrentUser, Some(p.x), Some(p.y)))
  }

  /** The first render of another user's card throws. */
  lemma OtherUserCardRenderThrows(innerHeight: real)
    ensures DependenciesAsWritten(false, InitialPosition(false, innerHeight)).None?
  {
  }

  /**
   * The dependency list with optional chaining, `[isCurrentUser,
   * position?.x, position?.y]`: defined for every card.
   */
  function GuardedDependencies(isCurrentUser: bool, position: Option<Point>): (r: Dependencies)
    ensures r.isCurrentUser == isCurrentUser
    ensures r.x.Some? <==> position.Some?
    ensures r.y.Some? <==> position.Some?
  {
    match position
    case None => Dependencies(isCurrentUser, None, None)
    case Some(p) => Dependencies(isCurrentUser, Some(p.x), Some(p.y))
  }

  /**
   * The guarded list renders every card, and wherever the written one does
   * not throw the two lists agree.
   */
  lemma GuardedDependenciesAgree(isCurrentUser: bool, position: Option<Point>)
    ensures DependenciesAsWritten(isCurrentUser, position).Some? ==>
      DependenciesAsWritten(isCurrentUser, position).value == GuardedDependencies(isCurrentUser, position)
    ensures forall innerHeight: real :: GuardedDependencies(isCurrentUser, InitialPosition(isCurrentUser, innerHeight)).x.Some?
                                       <==> isCurrentUser
  {
  }

  /** The card's inline style, reduced to what depends on state. */
  datatype CardStyle = CardStyle(fixed: bool, left: Option<real>, top: Option<real>, zIndex: int)

  class Card {
    const isCurrentUser: bool
    /** Only the local user's card has a position (`null` for the others). */
    var position: Option<Point>
    var isDragging: bool
    var dragOffset: Point
    /** Positions scheduled with `requestAnimationFrame` and not yet applied. */
    var pendingFrames: seq<Point>

    ghost predicate Valid()
      reads this
    {
      && (position.Some? <==> isCurrentUser)
      && (isDragging ==> isCurrentUser)
      && (pendingFrames != [] ==> isCurrentUser)
    }

    /**
     * The first render: the local user's card starts near the bottom-left
     * corner; another user's card has no position and renders with
     * `GuardedDependencies`.
     */
    constructor (isCurrentUser: bool, innerHeight: real)
      ensures Valid() && this.isCurrentUser == isCurrentUser
      ensures position == InitialPosition(isCurrentUser, innerHeight)
      ensures !isDragging && dragOffset == Point(0.0, 0.0) && pendingFrames == []
    {
      this.isCurrentUser := isCurrentUser;
      position := InitialPosition(isCurrentUser, innerHeight);
      isDragging := false;
      dragOffset := Point(0.0, 0.0);
      pendingFrames := [];
    }

    /**
     * A mouse or touch press: a drag starts only on the local user's card
     * and never from a control button.
     */
    method PointerDown(pointer: Point, onControlButton: bool)
      requires Valid()
      modifies this`isDragging, this`dragOffset
      ensures Valid()
      ensures isDragging <==> old(isDragging) || (isCurrentUser && !onControlButton)
      ensures isCurrentUser && !onControlButton ==> dragOffset == Minus(pointer, position.value)
      ensures !(isCurrentUser && !onControlButton) ==> dragOffset == old(dragOffset)
    {
      if !isCurrentUser {
        return;
      }
      if onControlButton {
        return;
      }
      dragOffset := Minus(pointer, position.value);
      isDragging := true;
    }

    /**
     * A move: ignored unless dragging; otherwise the clamped and snapped
     * target is scheduled for the next frame and the position is untouched.
     */
    method PointerMove(pointer: Point, innerWidth: real, innerHeight: real)
      requires Valid()
      modifies this`pendingFrames
      ensures Valid()
      ensures !isDragging ==> pendingFrames == old(pendingFrames)
      ensures isDragging ==>
        && |pendingFrames| == |old(pendingFrames)| + 1
        && pendingFrames[..|old(pendingFrames)|] == old(pendingFrames)
      ensures isDragging ==>
        var p := pendingFrames[|pendingFrames| - 1];
        && p.x == LateSnapAxis(Clamp(0.0, innerWidth * 0.7 - 280.0, pointer.x - dragOffset.x), innerWidth * 0.7 - 280.0)
        && p.y == LateSnapAxis(Clamp(0.0, innerHeight - 280.0, pointer.y - dragOffset.y), innerHeight - 280.0)
    {
      if !isDragging {
        return;
      }
      var p := DragMove(Minus(pointer, dragOffset), innerWidth, innerHeight);
      pendingFrames := pendingFrames + [p];
    }

    /**
     * The next animation frame: the scheduled updates run in order, so the
     * position ends at the last one; with none pending nothing changes.
     */
    method AnimationFrame()
      requires Valid()
      modifies this`position, this`pendingFrames
      ensures Valid() && pendingFrames == []
      ensures old(pendingFrames) == [] ==> position == old(position)
      ensures old(pendingFrames) != [] ==> position == Some(old(pendingFrames)[|old(pendingFrames)| - 1])
    {
      var i := 0;
      while i < |pendingFrames|
        invariant 0 <= i <= |pendingFrames|
        invariant pendingFrames == old(pendingFrames) && Valid()
        invariant i == 0 ==> position == old(position)
        invariant i > 0 ==> position == Some(pendingFrames[i - 1])
      {
        position := Some(pendingFrames[i]);
        i := i + 1;
      }
      pendingFrames := [];
    }

    /** Mouse up or touch end: dragging stops. */
    method PointerUp()
      requires Valid()
      modifies this`isDragging
      ensures Valid() && !isDragging
    {
      isDragging := false;
    }

    /**
     * `cardStyle`: only the local user's card is fixed at its position, on
     * top while dragged and at 1000 otherwise; other cards flow in the
     * layout at stacking order 1.
     */
    function Style(): (s: CardStyle)
      requires Valid()
      reads this
      ensures s.fixed <==> isCurrentUser
      ensures s.left.Some? <==> isCurrentUser
      ensures isCurrentUser ==> s.left == Some(position.value.x) && s.top == Some(position.value.y)
      ensures !isCurrentUser ==> s.top.None? && s.zIndex == 1
      ensures isCurrentUser ==> s.zIndex == (if isDragging then 99999 else 1000)
    {
      if isCurrentUser then
        CardStyle(true, Some(position.value.x), Some(position.value.y), if isDragging then 99999 else 1000)
      else
        CardStyle(false, None, None, 1)
    }
  }

  /**
   * The stacking the style gives: the local user's card lies above every
   * other user's card, and a card being dragged above one that is not.
   */
  lemma DraggedCardOnTop(a: Card, b: Card)
    requires a.Valid() && b.Valid()
    ensures a.isCurrentUser && !b.isCurrentUser ==> a.Style().zIndex > b.Style().zIndex
    ensures a.isDragging && !b.isDragging ==> a.Style().zIndex > b.Style().zIndex
  {
  }
}
