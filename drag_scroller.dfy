/**
 * Drag-to-scroll for the horizontal project carousel of the portfolio page
 * (app/page.tsx, LimeCompanySwiper).
 *
 * A press (mouse down or touch start) enters the dragging state and records
 * where the pointer was, relative to the container's left edge, and the
 * container's scroll offset at that moment. A move while dragging sets the
 * container's scroll offset to that snapshot minus twice the pointer's travel
 * since the press. Mouse up, mouse leave and touch end leave the dragging
 * state. The press and move handlers return at once while the container is
 * not mounted; the release handlers only clear the dragging flag.
 */
module DragScroller {
  import opened Wrappers

  /** Scroll distance per unit of pointer travel. */
  const Sensitivity: int := 2

  /** The carousel container element: its left edge and its live scroll offset. */
  datatype Element = Element(offsetLeft: int, scrollLeft: int)

  /**
   * The swiper's component state (isDragging, startX and the scrollLeft
   * snapshot taken at the press) and its container, absent before mount.
   */
  datatype Swiper = Swiper(isDragging: bool, startX: int, scrollLeft: int, container: Option<Element>)

  /** The pointer and touch events the carousel listens to; pageX is the pointer's (first touch's) page coordinate. */
  datatype Event =
    | MouseDown(pageX: int)
    | MouseMove(pageX: int)
    | MouseUp
    | MouseLeave
    | TouchStart(pageX: int)
    | TouchMove(pageX: int)
    | TouchEnd

  predicate IsPress(e: Event)
  {
    e.MouseDown? || e.TouchStart?
  }

  predicate IsMove(e: Event)
  {
    e.MouseMove? || e.TouchMove?
  }

  predicate IsRelease(e: Event)
  {
    e.MouseUp? || e.MouseLeave? || e.TouchEnd?
  }

  /** The state the component starts in: not dragging, startX and the snapshot both 0. */
  function Initial(container: Option<Element>): Swiper
  {
    Swiper(false, 0, 0, container)
  }

  /** The pointer's position relative to the container's left edge. */
  function RelativeX(c: Element, pageX: int): int
  {
    pageX - c.offsetLeft
  }

  /** Mouse down or touch start. */
  function Press(s: Swiper, pageX: int): Swiper
  {
    match s.container
    case None => s
    case Some(c) => s.(isDragging := true, startX := RelativeX(c, pageX), scrollLeft := c.scrollLeft)
  }

  /** Mouse move or touch move. */
  function Move(s: Swiper, pageX: int): Swiper
  {
    if !s.isDragging || s.container.None? then s
    else
      var c := s.container.value;
      var walk := (RelativeX(c, pageX) - s.startX) * Sensitivity;
      s.(container := Some(c.(scrollLeft := s.scrollLeft - walk)))
  }

  /** Mouse up, mouse leave or touch end. */
  function Release(s: Swiper): Swiper
  {
    s.(isDragging := false)
  }

  /**
   * One event. No event mounts or unmounts the container or moves its left
   * edge; only a move can change its scroll offset, and only a press can
   * enter the dragging state.
   */
  function Step(s: Swiper, e: Event): (r: Swiper)
    ensures r.container.Some? == s.container.Some?
    ensures r.container.Some? ==> r.container.value.offsetLeft == s.container.value.offsetLeft
    ensures !IsMove(e) ==> r.container == s.container
    ensures r.isDragging && !s.isDragging ==> IsPress(e)
    ensures IsRelease(e) ==> !r.isDragging
  {
    match e
    case MouseDown(x) => Press(s, x)
    case TouchStart(x) => Press(s, x)
    case MouseMove(x) => Move(s, x)
    case TouchMove(x) => Move(s, x)
    case MouseUp => Release(s)
    case MouseLeave => Release(s)
    case TouchEnd => Release(s)
  }

  /**
   * Without a mounted container the swiper is never dragging: only a press
   * enters dragging, and a press needs the container.
   */
  predicate Consistent(s: Swiper)
  {
    s.container.None? ==> !s.isDragging
  }

  /** A sequence of events, handled in order. */
  function Run(s: Swiper, events: seq<Event>): Swiper
    decreases |events|
  {
    if events == [] then s else Run(Step(s, events[0]), events[1..])
  }

  /**
   * A press with the container mounted enters the dragging state, records the
   * pointer's position relative to the container and the container's scroll
   * offset, and does not scroll.
   */
  lemma PressRecordsSnapshot(s: Swiper, e: Event)
    requires IsPress(e) && s.container.Some?
    ensures Step(s, e).isDragging
    ensures Step(s, e).startX == e.pageX - s.container.value.offsetLeft
    ensures Step(s, e).scrollLeft == s.container.value.scrollLeft
    ensures Step(s, e).container == s.container
  {
  }

  /**
   * A move while dragging sets the container's scroll offset to the snapshot
   * minus twice the pointer's travel since the press, and leaves the drag
   * state alone.
   */
  lemma MoveScrollsBySensitivity(s: Swiper, e: Event)
    requires IsMove(e) && s.isDragging && s.container.Some?
    ensures var r := Step(s, e);
      && r.container.Some?
      && r.container.value.scrollLeft == s.scrollLeft - ((e.pageX - s.container.value.offsetLeft) - s.startX) * 2
      && r.isDragging && r.startX == s.startX && r.scrollLeft == s.scrollLeft
  {
  }

  /** A move when not dragging, or with no container, is a no-op. */
  lemma InertMove(s: Swiper, e: Event)
    requires IsMove(e) && (!s.isDragging || s.container.None?)
    ensures Step(s, e) == s
  {
  }

  /**
   * Pressing at scroll offset S and then moving by d units yields scroll
   * offset S - 2d, wherever the container's left edge is.
   */
  lemma DragDisplacement(s: Swiper, press: Event, move: Event)
    requires IsPress(press) && IsMove(move) && s.container.Some?
    ensures Step(Step(s, press), move).container.value.scrollLeft
         == s.container.value.scrollLeft - (move.pageX - press.pageX) * Sensitivity
  {
  }

  /** A move back to the press position restores the snapshot exactly. */
  lemma MoveBackRestores(s: Swiper, x: int)
    requires s.container.Some?
    ensures Step(Step(s, MouseDown(x)), MouseMove(x)).container == s.container
    ensures Step(Step(s, TouchStart(x)), TouchMove(x)).container == s.container
  {
  }

  /**
   * Once idle, nothing but a press changes anything: moves are ignored and
   * releases keep the state idle.
   */
  lemma {:induction false} IdleUntilPress(s: Swiper, events: seq<Event>)
    requires !s.isDragging
    requires forall i :: 0 <= i < |events| ==> !IsPress(events[i])
    ensures Run(s, events) == s
    decreases |events|
  {
    if events != [] {
      var e := events[0];
      assert Step(s, e) == s by {
        if IsRelease(e) {
          assert Release(s) == s;
        }
      }
      IdleUntilPress(s, events[1..]);
    }
  }

  /** After mouse up, mouse leave or touch end, later moves before a new press leave the container as it is. */
  lemma ReleaseEndsDrag(s: Swiper, release: Event, events: seq<Event>)
    requires IsRelease(release)
    requires forall i :: 0 <= i < |events| ==> !IsPress(events[i])
    ensures Run(s, [release] + events) == Release(s)
  {
    assert ([release] + events)[1..] == events;
    IdleUntilPress(Release(s), events);
  }

  /**
   * During a drag only the last move counts: the scroll offset is computed
   * from the snapshot each time, so intermediate moves leave no trace.
   */
  lemma {:induction false} LastMoveWins(s: Swiper, events: seq<Event>)
    requires s.isDragging && s.container.Some?
    requires events != []
    requires forall i :: 0 <= i < |events| ==> IsMove(events[i])
    ensures IsMove(events[|events| - 1]) && Run(s, events) == Move(s, events[|events| - 1].pageX)
    decreases |events|
  {
    var e := events[0];
    var t := Step(s, e);
    if |events| == 1 {
      assert Run(t, events[1..]) == t;
    } else {
      LastMoveWins(t, events[1..]);
      assert events[1..][|events[1..]| - 1] == events[|events| - 1];
      assert Move(t, events[|events| - 1].pageX) == Move(s, events[|events| - 1].pageX);
    }
  }

  /** The initial state is consistent, and every sequence of events keeps it so. */
  lemma {:induction false} RunKeepsConsistent(s: Swiper, events: seq<Event>)
    requires Consistent(s)
    ensures Consistent(Run(s, events))
    decreases |events|
  {
    if events != [] {
      assert Consistent(Step(s, events[0]));
      RunKeepsConsistent(Step(s, events[0]), events[1..]);
    }
  }

  /** Starting from the initial state, no sequence of events leaves the swiper dragging without a container. */
  lemma NeverDraggingUnmounted(container: Option<Element>, events: seq<Event>)
    ensures Run(Initial(container), events).container.None? ==> !Run(Initial(container), events).isDragging
  {
    RunKeepsConsistent(Initial(container), events);
  }

  /** The carousel's container element, as the page's DOM holds it. */
  class ContainerElement {
    var offsetLeft: int
    var scrollLeft: int

    constructor (offsetLeft: int, scrollLeft: int)
      ensures this.offsetLeft == offsetLeft && this.scrollLeft == scrollLeft
    {
      this.offsetLeft := offsetLeft;
      this.scrollLeft := scrollLeft;
    }
  }

  /** The carousel component: its state hooks and its container reference (null before mount). */
  class LimeCompanySwiper {
    var isDragging: bool
    var startX: int
    var scrollLeft: int
    const containerRef: ContainerElement?

    /** The component and its container as a value. */
    function View(): Swiper
      reads this, containerRef
    {
      Swiper(isDragging, startX, scrollLeft,
             if containerRef == null then None
             else Some(Element(containerRef.offsetLeft, containerRef.scrollLeft)))
    }

    constructor (containerRef: ContainerElement?)
      ensures this.containerRef == containerRef
      ensures !isDragging && startX == 0 && scrollLeft == 0
      ensures View() == Initial(View().container)
    {
      this.containerRef := containerRef;
      isDragging := false;
      startX := 0;
      scrollLeft := 0;
    }

    method HandleMouseDown(pageX: int)
      modifies this
      ensures containerRef != null ==>
        isDragging && startX == pageX - containerRef.offsetLeft && scrollLeft == containerRef.scrollLeft
      ensures containerRef == null ==>
        isDragging == old(isDragging) && startX == old(startX) && scrollLeft == old(scrollLeft)
      ensures View() == Step(old(View()), MouseDown(pageX))
    {
      if containerRef == null {
        return;
      }
      isDragging := true;
      startX := pageX - containerRef.offsetLeft;
      scrollLeft := containerRef.scrollLeft;
    }

    method HandleMouseMove(pageX: int)
      modifies containerRef
      ensures containerRef != null && isDragging ==>
        containerRef.scrollLeft == scrollLeft - ((pageX - containerRef.offsetLeft) - startX) * 2
      ensures containerRef == null || !isDragging ==> View() == old(View())
      ensures View() == Step(old(View()), MouseMove(pageX))
    {
      if !isDragging || containerRef == null {
        return;
      }
      var x := pageX - containerRef.offsetLeft;
      var walk := (x - startX) * Sensitivity;
      containerRef.scrollLeft := scrollLeft - walk;
    }

    method HandleMouseUp()
      modifies this`isDragging
      ensures !isDragging
      ensures View() == Step(old(View()), MouseUp)
    {
      isDragging := false;
    }

    method HandleMouseLeave()
      modifies this`isDragging
      ensures !isDragging
      ensures View() == Step(old(View()), MouseLeave)
    {
      isDragging := false;
    }

    /** pageX is the page coordinate of the first touch point. */
    method HandleTouchStart(pageX: int)
      modifies this
      ensures containerRef != null ==>
        isDragging && startX == pageX - containerRef.offsetLeft && scrollLeft == containerRef.scrollLeft
      ensures containerRef == null ==>
        isDragging == old(isDragging) && startX == old(startX) && scrollLeft == old(scrollLeft)
      ensures View() == Step(old(View()), TouchStart(pageX))
    {
      if containerRef == null {
        return;
      }
      isDragging := true;
      startX := pageX - containerRef.offsetLeft;
      scrollLeft := containerRef.scrollLeft;
    }

    /** pageX is the page coordinate of the first touch point. */
    method HandleTouchMove(pageX: int)
      modifies containerRef
      ensures containerRef != null && isDragging ==>
        containerRef.scrollLeft == scrollLeft - ((pageX - containerRef.offsetLeft) - startX) * 2
      ensures containerRef == null || !isDragging ==> View() == old(View())
      ensures View() == Step(old(View()), TouchMove(pageX))
    {
      if !isDragging || containerRef == null {
        return;
      }
      var x := pageX - containerRef.offsetLeft;
      var walk := (x - startX) * Sensitivity;
      containerRef.scrollLeft := scrollLeft - walk;
    }

    method HandleTouchEnd()
      modifies this`isDragging
      ensures !isDragging
      ensures View() == Step(old(View()), TouchEnd)
    {
      isDragging := false;
    }
  }
}
