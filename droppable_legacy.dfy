/**
 * The droppable directive of the first release (src/droppable.directive.ts).
 *
 * It runs the same overlap machine as the current directive, but reads its
 * rectangle once, when the drag stream arrives, has no scroll container and
 * touches no classes.
 */
module LegacyDroppable {
  import opened DragTypes
  import opened DropOverlap

  class Droppable {
    /** The subscription to `currentDrag` is open. */
    var subscribed: bool
    /** A drag stream is being observed. */
    var active: bool
    /** `droppableRectangle` of the current drag. */
    var rect: Rect
    var currentDragDropData: DropData
    var memory: Memory
    var events: seq<DropEvent>

    ghost predicate Valid()
      reads this
    {
      Consistent(memory)
    }

    constructor ()
      ensures Valid() && subscribed && !active && events == []
    {
      subscribed := true;
      active := false;
      rect := Rect(0, 0, 0, 0);
      currentDragDropData := Undefined;
      memory := Start;
      events := [];
    }

    /** A drag stream arrives: the element's rectangle at that moment is the
        one every sample of the stream is tested against. */
    method OnDragStream(elementRect: Rect)
      requires Valid() && !active
      modifies this
      ensures Valid()
      ensures old(subscribed) ==>
        active && rect == elementRect && memory == Start && currentDragDropData == Undefined
      ensures !old(subscribed) ==> !active && rect == old(rect) && memory == old(memory)
      ensures events == old(events) && subscribed == old(subscribed)
    {
      if subscribed {
        rect := elementRect;
        currentDragDropData := Undefined;
        memory := Start;
        active := true;
      }
    }

    /** One sample `{ clientX, clientY, dropData }`. */
    method OnSample(x: int, y: int, data: DropData)
      requires Valid() && active
      modifies this
      ensures Valid() && active && rect == old(rect)
      ensures currentDragDropData == data
      ensures var step := Step(old(memory), IsCoordinateWithinRectangle(x, y, rect));
        memory == step.0 && events == old(events) + Notify(step.1, data)
      ensures subscribed == old(subscribed)
    {
      currentDragDropData := data;
      var step := Step(memory, IsCoordinateWithinRectangle(x, y, rect));
      memory := step.0;
      events := events + Notify(step.1, data);
    }

    /** The drag stream completes: drop when the pointer is still over the
        element, with the data of the last sample. */
    method OnComplete()
      requires Valid() && active
      modifies this
      ensures Valid() && !active
      ensures events == old(events) + (if old(memory.dragOverActive) then [DropEvent(Drop, old(currentDragDropData))] else [])
      ensures subscribed == old(subscribed) && memory == old(memory)
    {
      if memory.dragOverActive {
        events := events + [DropEvent(Drop, currentDragDropData)];
      }
      active := false;
    }

    method NgOnDestroy()
      modifies this`subscribed
      ensures !subscribed
    {
      subscribed := false;
    }
  }

  /** The overlap sequence of a stream against one fixed rectangle. */
  function Overlaps(rect: Rect, xs: seq<int>, ys: seq<int>): (o: seq<bool>)
    requires |xs| == |ys|
    ensures |o| == |xs|
    ensures forall i :: 0 <= i < |xs| ==> o[i] == IsCoordinateWithinRectangle(xs[i], ys[i], rect)
  {
    seq(|xs|, i requires 0 <= i < |xs| => IsCoordinateWithinRectangle(xs[i], ys[i], rect))
  }

  lemma OverlapsSnoc(rect: Rect, xs: seq<int>, ys: seq<int>, i: nat)
    requires |xs| == |ys| && i < |xs|
    ensures Overlaps(rect, xs[..i + 1], ys[..i + 1])
      == Overlaps(rect, xs[..i], ys[..i]) + [IsCoordinateWithinRectangle(xs[i], ys[i], rect)]
  {
  }

  /** The samples of one stream, fed in order. */
  method FeedSamples(d: Droppable, xs: seq<int>, ys: seq<int>, data: seq<DropData>)
    requires d.Valid() && d.active
    requires |xs| == |ys| == |data|
    modifies d
    ensures d.Valid() && d.active && d.rect == old(d.rect) && d.subscribed == old(d.subscribed)
    ensures d.memory == RunFrom(old(d.memory), Overlaps(d.rect, xs, ys))
    ensures |xs| > 0 ==> d.currentDragDropData == data[|data| - 1]
    ensures |d.events| >= |old(d.events)| && d.events[..|old(d.events)|] == old(d.events)
    ensures forall k :: |old(d.events)| <= k < |d.events| ==> d.events[k].kind != Drop
  {
    var i := 0;
    while i < |xs|
      invariant 0 <= i <= |xs|
      invariant d.Valid() && d.active && d.rect == old(d.rect) && d.subscribed == old(d.subscribed)
      invariant d.memory == RunFrom(old(d.memory), Overlaps(d.rect, xs[..i], ys[..i]))
      invariant i > 0 ==> d.currentDragDropData == data[i - 1]
      invariant |d.events| >= |old(d.events)| && d.events[..|old(d.events)|] == old(d.events)
      invariant forall k :: |old(d.events)| <= k < |d.events| ==> d.events[k].kind != Drop
    {
      ghost var ev := d.events;
      ghost var step := Step(d.memory, IsCoordinateWithinRectangle(xs[i], ys[i], d.rect));
      OverlapsSnoc(d.rect, xs, ys, i);
      RunFromSnoc(old(d.memory), Overlaps(d.rect, xs[..i], ys[..i]), IsCoordinateWithinRectangle(xs[i], ys[i], d.rect));
      NotifyAddsNoDrop(old(d.events), ev, step.1, data[i]);
      d.OnSample(xs[i], ys[i], data[i]);
      i := i + 1;
    }
    assert xs[..|xs|] == xs && ys[..|ys|] == ys;
  }

  /** One whole drag against the legacy directive: the rectangle given when
      the stream arrives decides every sample, the memory afterwards is that
      of the overlap machine over the whole stream, and the directive drops
      exactly when the last sample lies within that rectangle; otherwise no
      drop is emitted. */
  method ObserveDrag(d: Droppable, elementRect: Rect, xs: seq<int>, ys: seq<int>, data: seq<DropData>)
    returns (dropped: bool)
    requires d.Valid() && !d.active && d.subscribed
    requires |xs| == |ys| == |data|
    modifies d
    ensures d.Valid() && !d.active
    ensures d.memory == Run(Overlaps(elementRect, xs, ys)).0
    ensures dropped <==> |xs| > 0 && IsCoordinateWithinRectangle(xs[|xs| - 1], ys[|ys| - 1], elementRect)
    ensures dropped ==> |d.events| > 0 && d.events[|d.events| - 1] == DropEvent(Drop, data[|data| - 1])
    ensures |d.events| >= |old(d.events)| && d.events[..|old(d.events)|] == old(d.events)
    ensures (exists k :: |old(d.events)| <= k < |d.events| && d.events[k].kind == Drop) <==> dropped
  {
    d.OnDragStream(elementRect);
    FeedSamples(d, xs, ys, data);
    RunFromStart(Overlaps(elementRect, xs, ys));
    DropIffLastSampleOverlaps(Overlaps(elementRect, xs, ys));
    dropped := d.memory.dragOverActive;
    ghost var before := d.events;
    ghost var last := d.currentDragDropData;
    CompletionDrops(old(d.events), before, dropped, last);
    d.OnComplete();
    assert d.events == before + (if dropped then [DropEvent(Drop, last)] else []);
  }
}
