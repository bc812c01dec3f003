/**
 * The droppable directive (projects/angular-draggable-droppable/src/lib/droppable.directive.ts).
 *
 * For each drag stream the directive subscribes to, it adds
 * `dragActiveClass`, registers a scroll listener that invalidates its cached
 * rectangles, and runs the overlap machine of DropOverlap over the samples,
 * adding `dragOverClass` on enter and removing it on leave. When the stream
 * completes it deregisters the listener, removes `dragActiveClass`, and if
 * the pointer is still over it removes `dragOverClass` and emits `drop`.
 *
 * The rectangles the browser would report (`getBoundingClientRect` of the
 * element and of the scroll container) are parameters of each sample.
 */
module Droppable {
  import opened DragTypes
  import opened DropOverlap
  import opened ClassList

  /** The overlap test of one sample: within the element, and within the
      scroll container when its rectangle has been read. */
  function SampleOverlaps(x: int, y: int, rect: Rect, scrollContainerRect: Option<Rect>): (r: bool)
    ensures scrollContainerRect.None? ==> (r <==> IsCoordinateWithinRectangle(x, y, rect))
    ensures scrollContainerRect.Some? ==>
      (r <==> IsCoordinateWithinRectangle(x, y, rect)
              && IsCoordinateWithinRectangle(x, y, scrollContainerRect.value))
  {
    IsCoordinateWithinRectangle(x, y, rect)
      && (scrollContainerRect.Some? ==> IsCoordinateWithinRectangle(x, y, scrollContainerRect.value))
  }

  class DroppableDirective {
    const element: Element
    const dragOverClass: string
    const dragActiveClass: string
    /** Whether a `DraggableScrollContainerDirective` encloses the element. */
    const hasScrollContainer: bool

    /** The subscription to `draggableHelper.currentDrag` is open. */
    var subscribed: bool
    /** A drag stream is being observed. */
    var active: bool
    /** The `droppableElement` cache. */
    var updateCache: bool
    var rect: Option<Rect>
    var scrollContainerRect: Option<Rect>
    /** The scroll listener of the current drag is registered. */
    var scrollListener: bool
    var currentDragDropData: DropData
    var memory: Memory
    var events: seq<DropEvent>

    ghost predicate Valid()
      reads this
    {
      && Consistent(memory)
      && scrollListener == active
      && (active && !updateCache ==> rect.Some?)
      && (scrollContainerRect.Some? ==> hasScrollContainer)
    }

    constructor (element: Element, dragOverClass: string, dragActiveClass: string, hasScrollContainer: bool)
      ensures Valid()
      ensures this.element == element && this.dragOverClass == dragOverClass
      ensures this.dragActiveClass == dragActiveClass && this.hasScrollContainer == hasScrollContainer
      ensures subscribed && !active && events == []
      ensures updateCache && rect.None? && scrollContainerRect.None? && !scrollListener
      ensures memory == Start && currentDragDropData == Undefined
    {
      this.element := element;
      this.dragOverClass := dragOverClass;
      this.dragActiveClass := dragActiveClass;
      this.hasScrollContainer := hasScrollContainer;
      subscribed := true;
      active := false;
      updateCache := true;
      rect := None;
      scrollContainerRect := None;
      scrollListener := false;
      currentDragDropData := Undefined;
      memory := Start;
      events := [];
    }

    /** A new drag stream arrives on `currentDrag`. */
    method OnDragStream()
      requires Valid() && !active
      modifies this, element
      ensures Valid()
      ensures old(subscribed) ==>
        && active && updateCache && rect.None? && scrollContainerRect.None?
        && memory == Start && currentDragDropData == Undefined
        && element.classes == Added(old(element.classes), dragActiveClass)
      ensures !old(subscribed) ==> !active && element.classes == old(element.classes)
      ensures events == old(events) && subscribed == old(subscribed)
    {
      if subscribed {
        element.AddClass(dragActiveClass);
        updateCache := true;
        rect := None;
        scrollContainerRect := None;
        scrollListener := true;
        currentDragDropData := Undefined;
        memory := Start;
        active := true;
      }
    }

    /** A scroll of the window or the scroll container. */
    method OnScroll()
      requires Valid()
      modifies this`updateCache
      ensures Valid()
      ensures updateCache == (old(updateCache) || scrollListener)
      ensures unchanged(this`subscribed, this`active, this`rect, this`scrollContainerRect,
                        this`scrollListener, this`currentDragDropData, this`memory, this`events)
    {
      if scrollListener {
        updateCache := true;
      }
    }

    /** One sample `{ clientX, clientY, dropData }` of the drag stream, with
        the rectangles the browser would report at that moment. */
    method OnSample(x: int, y: int, data: DropData, liveRect: Rect, liveContainerRect: Rect)
      requires Valid() && active
      modifies this, element
      ensures Valid() && active && !updateCache
      ensures currentDragDropData == data
      ensures old(updateCache) ==>
        && rect == Some(liveRect)
        && scrollContainerRect == (if hasScrollContainer then Some(liveContainerRect) else old(scrollContainerRect))
      ensures !old(updateCache) ==> rect == old(rect) && scrollContainerRect == old(scrollContainerRect)
      ensures var step := Step(old(memory), SampleOverlaps(x, y, rect.value, scrollContainerRect));
        && memory == step.0
        && events == old(events) + Notify(step.1, data)
        && element.classes ==
             (if DragEnter in step.1 then Added(old(element.classes), dragOverClass)
              else if DragLeave in step.1 then Removed(old(element.classes), dragOverClass)
              else old(element.classes))
      ensures subscribed == old(subscribed)
    {
      currentDragDropData := data;
      if updateCache {
        rect := Some(liveRect);
        if hasScrollContainer {
          scrollContainerRect := Some(liveContainerRect);
        }
        updateCache := false;
      }
      var overlaps := SampleOverlaps(x, y, rect.value, scrollContainerRect);
      var step := Step(memory, overlaps);
      if DragEnter in step.1 {
        element.AddClass(dragOverClass);
      }
      if DragLeave in step.1 {
        element.RemoveClass(dragOverClass);
      }
      memory := step.0;
      events := events + Notify(step.1, data);
    }

    /** The drag stream completes. */
    method OnComplete()
      requires Valid() && active
      modifies this, element
      ensures Valid() && !active && !scrollListener
      ensures old(memory.dragOverActive) ==>
        && events == old(events) + [DropEvent(Drop, old(currentDragDropData))]
        && element.classes == Removed(Removed(old(element.classes), dragActiveClass), dragOverClass)
      ensures !old(memory.dragOverActive) ==>
        events == old(events) && element.classes == Removed(old(element.classes), dragActiveClass)
      ensures subscribed == old(subscribed) && memory == old(memory)
    {
      scrollListener := false;
      element.RemoveClass(dragActiveClass);
      if memory.dragOverActive {
        element.RemoveClass(dragOverClass);
        events := events + [DropEvent(Drop, currentDragDropData)];
      }
      active := false;
    }

    /** `ngOnDestroy`: no further drag stream is observed; one already under
        way is still followed to its end. */
    method NgOnDestroy()
      modifies this`subscribed
      ensures !subscribed
    {
      subscribed := false;
    }
  }

  /** The overlap sequence of a stream against the rectangles cached at its
      first sample. */
  function CachedOverlaps(xs: seq<int>, ys: seq<int>, rect: Rect, container: Option<Rect>): (o: seq<bool>)
    requires |xs| == |ys|
    ensures |o| == |xs|
    ensures forall i :: 0 <= i < |xs| ==> o[i] == SampleOverlaps(xs[i], ys[i], rect, container)
  {
    seq(|xs|, i requires 0 <= i < |xs| => SampleOverlaps(xs[i], ys[i], rect, container))
  }

  lemma CachedOverlapsSnoc(xs: seq<int>, ys: seq<int>, rect: Rect, container: Option<Rect>, i: nat)
    requires |xs| == |ys| && i < |xs|
    ensures CachedOverlaps(xs[..i + 1], ys[..i + 1], rect, container)
      == CachedOverlaps(xs[..i], ys[..i], rect, container) + [SampleOverlaps(xs[i], ys[i], rect, container)]
  {
  }

  /** The samples of a non-empty stream, fed in order from the arrival of
      the stream: the first sample fills the cache, and the later ones are
      all tested against what it read. */
  method FeedSamples(d: DroppableDirective, xs: seq<int>, ys: seq<int>, data: seq<DropData>,
                     rects: seq<Rect>, containers: seq<Rect>)
    requires d.Valid() && d.active && d.updateCache && d.scrollContainerRect.None? && d.memory == Start
    requires |xs| == |ys| == |data| == |rects| == |containers| && |xs| > 0
    modifies d, d.element
    ensures d.Valid() && d.active
    ensures d.memory == RunFrom(Start, CachedOverlaps(xs, ys, rects[0],
                                                      if d.hasScrollContainer then Some(containers[0]) else None))
    ensures d.currentDragDropData == data[|data| - 1]
    ensures |d.events| >= |old(d.events)| && d.events[..|old(d.events)|] == old(d.events)
    ensures forall k :: |old(d.events)| <= k < |d.events| ==> d.events[k].kind != Drop
  {
    var c: Option<Rect> := if d.hasScrollContainer then Some(containers[0]) else None;
    var i := 0;
    while i < |xs|
      invariant 0 <= i <= |xs|
      invariant d.Valid() && d.active
      invariant i == 0 ==> d.updateCache && d.scrollContainerRect.None?
      invariant i > 0 ==> !d.updateCache && d.rect == Some(rects[0]) && d.scrollContainerRect == c
      invariant d.memory == RunFrom(Start, CachedOverlaps(xs[..i], ys[..i], rects[0], c))
      invariant i > 0 ==> d.currentDragDropData == data[i - 1]
      invariant |d.events| >= |old(d.events)| && d.events[..|old(d.events)|] == old(d.events)
      invariant forall k :: |old(d.events)| <= k < |d.events| ==> d.events[k].kind != Drop
    {
      ghost var ev := d.events;
      ghost var step := Step(d.memory, SampleOverlaps(xs[i], ys[i], rects[0], c));
      CachedOverlapsSnoc(xs, ys, rects[0], c, i);
      RunFromSnoc(Start, CachedOverlaps(xs[..i], ys[..i], rects[0], c), SampleOverlaps(xs[i], ys[i], rects[0], c));
      NotifyAddsNoDrop(old(d.events), ev, step.1, data[i]);
      d.OnSample(xs[i], ys[i], data[i], rects[i], containers[i]);
      i := i + 1;
    }
    assert xs[..|xs|] == xs && ys[..|ys|] == ys;
  }

  /** The whole life of one drag as the class sees it: a drag stream
      arrives, each sample comes with the rectangles the browser would
      report at that moment (`rects[i]` for the element and `containers[i]`
      for the container), and the stream completes. Without a scroll, the
      cache keeps the rectangles of the first sample, so the later ones do
      not matter: the memory is that of the overlap machine over the
      samples tested against the first rectangles, the directive drops
      exactly when the last sample overlaps them, the drop carries that
      sample's data, and no drop is emitted otherwise. */
  method ObserveDrag(d: DroppableDirective, xs: seq<int>, ys: seq<int>, data: seq<DropData>,
                     rects: seq<Rect>, containers: seq<Rect>)
    returns (dropped: bool)
    requires d.Valid() && !d.active && d.subscribed
    requires |xs| == |ys| == |data| == |rects| == |containers|
    modifies d, d.element
    ensures d.Valid() && !d.active
    ensures |xs| > 0 ==>
      d.memory == Run(CachedOverlaps(xs, ys, rects[0], if d.hasScrollContainer then Some(containers[0]) else None)).0
    ensures dropped <==>
      && |xs| > 0
      && SampleOverlaps(xs[|xs| - 1], ys[|ys| - 1], rects[0], if d.hasScrollContainer then Some(containers[0]) else None)
    ensures dropped ==> |d.events| > 0 && d.events[|d.events| - 1] == DropEvent(Drop, data[|data| - 1])
    ensures |d.events| >= |old(d.events)| && d.events[..|old(d.events)|] == old(d.events)
    ensures (exists k :: |old(d.events)| <= k < |d.events| && d.events[k].kind == Drop) <==> dropped
  {
    d.OnDragStream();
    if |xs| > 0 {
      var c: Option<Rect> := if d.hasScrollContainer then Some(containers[0]) else None;
      FeedSamples(d, xs, ys, data, rects, containers);
      RunFromStart(CachedOverlaps(xs, ys, rects[0], c));
    }
    dropped := d.memory.dragOverActive;
    ghost var before := d.events;
    ghost var last := d.currentDragDropData;
    CompletionDrops(old(d.events), before, dropped, last);
    d.OnComplete();
    assert d.events == before + (if dropped then [DropEvent(Drop, last)] else []);
  }
}
