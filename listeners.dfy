/**
 * The draggable directive's table of native event listeners
 * (`eventListenerSubscriptions`) and the handlers that fill and empty it.
 *
 * The table maps an event type to the unsubscribe handle that
 * `renderer.listen` returned for it. Here a handle is a number that
 * `renderer.listen` hands out fresh on every call, and `attached` records
 * which handles still have a live DOM listener behind them, so the model can
 * say that no listener is ever registered twice or leaked.
 *
 * A native event reaches a handler only while a listener for its type is
 * attached; `Dispatch` models that gate. What the handlers push into the
 * directive's pointer subjects is recorded in `pointerSignals`, which the
 * pipeline models in DraggableDirective consume.
 */
module EventListeners {
  import opened DragTypes

  datatype ListenerType =
    | MouseDown | MouseUp | TouchStart | TouchEnd | TouchCancel
    | MouseEnter | MouseLeave | MouseMove | TouchMove

  /** The seven listeners `checkEventListeners` installs. */
  const StaticListeners: set<ListenerType> :=
    {MouseDown, MouseUp, TouchStart, TouchEnd, TouchCancel, MouseEnter, MouseLeave}

  /** The order of the seven `renderer.listen` calls of `checkEventListeners`. */
  const InstallOrder: seq<ListenerType> :=
    [MouseDown, MouseUp, TouchStart, TouchEnd, TouchCancel, MouseEnter, MouseLeave]

  /** A value pushed into `pointerDown$`, `pointerMove$` or `pointerUp$`. */
  datatype PointerSignal = Down(p: Pointer) | Move(p: Pointer) | Up(p: Pointer)

  /** A native event as the DOM would deliver it, with the coordinates the
      handler reads (`clientX/Y`, `touches[0]`, `targetTouches[0]` or
      `changedTouches[0]`). */
  datatype DomEvent = DomEvent(kind: ListenerType, p: Pointer)

  class DraggableListeners {
    var dragAxis: DragAxis
    var dragCursor: string
    /** The element's `cursor` style. */
    var cursor: string
    var eventListenerSubscriptions: map<ListenerType, nat>
    /** Live DOM registrations: handle -> event type. */
    var attached: map<nat, ListenerType>
    var nextHandle: nat
    var pointerSignals: seq<PointerSignal>

    /** The table and the live registrations are the same relation, and
        every handle in use was handed out before `nextHandle`. */
    ghost predicate Valid()
      reads this
    {
      && (forall t :: t in eventListenerSubscriptions ==>
            eventListenerSubscriptions[t] in attached
            && attached[eventListenerSubscriptions[t]] == t)
      && (forall h :: h in attached ==>
            attached[h] in eventListenerSubscriptions
            && eventListenerSubscriptions[attached[h]] == h)
      && (forall h :: h in attached ==> h < nextHandle)
    }

    constructor (dragAxis: DragAxis, dragCursor: string)
      ensures Valid()
      ensures this.dragAxis == dragAxis && this.dragCursor == dragCursor
      ensures eventListenerSubscriptions == map[] && attached == map[]
      ensures pointerSignals == [] && cursor == ""
    {
      this.dragAxis := dragAxis;
      this.dragCursor := dragCursor;
      cursor := "";
      eventListenerSubscriptions := map[];
      attached := map[];
      nextHandle := 0;
      pointerSignals := [];
    }

    /** `this.eventListenerSubscriptions[t] = this.renderer.listen(...)` for a
        type that has no entry. */
    method Listen(t: ListenerType)
      requires Valid() && t !in eventListenerSubscriptions
      modifies this
      ensures Valid()
      ensures eventListenerSubscriptions == old(eventListenerSubscriptions)[t := old(nextHandle)]
      ensures attached == old(attached)[old(nextHandle) := t]
      ensures nextHandle == old(nextHandle) + 1
      ensures unchanged(this`dragAxis, this`dragCursor, this`cursor, this`pointerSignals)
    {
      eventListenerSubscriptions := eventListenerSubscriptions[t := nextHandle];
      attached := attached[nextHandle := t];
      nextHandle := nextHandle + 1;
    }

    /** `this.eventListenerSubscriptions[t](); delete this.eventListenerSubscriptions[t]`. */
    method Unlisten(t: ListenerType)
      requires Valid() && t in eventListenerSubscriptions
      modifies this
      ensures Valid()
      ensures eventListenerSubscriptions == old(eventListenerSubscriptions) - {t}
      ensures attached == old(attached) - {old(eventListenerSubscriptions)[t]}
      ensures unchanged(this`dragAxis, this`dragCursor, this`cursor,
                        this`pointerSignals, this`nextHandle)
    {
      attached := attached - {eventListenerSubscriptions[t]};
      eventListenerSubscriptions := eventListenerSubscriptions - {t};
    }

    /** The seven `renderer.listen` calls of `checkEventListeners`, each
        storing a fresh handle. */
    method InstallStaticListeners()
      requires Valid() && eventListenerSubscriptions == map[]
      modifies this
      ensures Valid()
      ensures eventListenerSubscriptions.Keys == StaticListeners
      ensures forall i :: 0 <= i < |InstallOrder| ==>
        eventListenerSubscriptions[InstallOrder[i]] == old(nextHandle) + i
      ensures nextHandle == old(nextHandle) + |InstallOrder|
      ensures unchanged(this`dragAxis, this`dragCursor, this`cursor, this`pointerSignals)
    {
      ListenAll(InstallOrder);
    }

    /** `renderer.listen` for each type of `ts` in turn, each storing the
        next handle. */
    method ListenAll(ts: seq<ListenerType>)
      requires Valid()
      requires forall i, j :: 0 <= i < j < |ts| ==> ts[i] != ts[j]
      requires forall i :: 0 <= i < |ts| ==> ts[i] !in eventListenerSubscriptions
      modifies this
      ensures Valid()
      ensures forall t :: t in eventListenerSubscriptions <==> t in old(eventListenerSubscriptions) || t in ts
      ensures forall t :: t in old(eventListenerSubscriptions) ==> eventListenerSubscriptions[t] == old(eventListenerSubscriptions)[t]
      ensures forall i :: 0 <= i < |ts| ==> eventListenerSubscriptions[ts[i]] == old(nextHandle) + i
      ensures nextHandle == old(nextHandle) + |ts|
      ensures unchanged(this`dragAxis, this`dragCursor, this`cursor, this`pointerSignals)
      decreases |ts|
    {
      if ts != [] {
        Listen(ts[0]);
        ListenAll(ts[1..]);
      }
    }

    /** `checkEventListeners`: install the seven listeners when dragging is
        possible and none are installed, remove every listener when dragging
        is impossible and some are installed, and otherwise do nothing. */
    method CheckEventListeners()
      requires Valid()
      modifies this
      ensures Valid()
      ensures old(CanDrag(dragAxis)) && old(|eventListenerSubscriptions|) == 0 ==>
        && eventListenerSubscriptions.Keys == StaticListeners
        && (forall i :: 0 <= i < |InstallOrder| ==>
              eventListenerSubscriptions[InstallOrder[i]] == old(nextHandle) + i)
      ensures !old(CanDrag(dragAxis)) && old(|eventListenerSubscriptions|) > 0 ==>
        eventListenerSubscriptions == map[] && attached == map[]
      ensures (old(CanDrag(dragAxis)) == (old(|eventListenerSubscriptions|) > 0)) ==>
        eventListenerSubscriptions == old(eventListenerSubscriptions) && attached == old(attached)
      ensures CanDrag(dragAxis) <==> |eventListenerSubscriptions| > 0
      ensures unchanged(this`dragAxis, this`dragCursor, this`cursor, this`pointerSignals)
    {
      var canDrag := CanDrag(dragAxis);
      var hasEventListeners := |eventListenerSubscriptions| > 0;
      if canDrag && !hasEventListeners {
        assert eventListenerSubscriptions.Keys == {};
        InstallStaticListeners();
        assert MouseDown in eventListenerSubscriptions;
      } else if !canDrag && hasEventListeners {
        UnsubscribeEventListeners();
      }
    }

    /** `unsubscribeEventListeners`: call and delete every entry. */
    method UnsubscribeEventListeners()
      requires Valid()
      modifies this
      ensures Valid()
      ensures eventListenerSubscriptions == map[] && attached == map[]
      ensures unchanged(this`dragAxis, this`dragCursor, this`cursor,
                        this`pointerSignals, this`nextHandle)
    {
      while eventListenerSubscriptions != map[]
        invariant Valid()
        invariant unchanged(this`dragAxis, this`dragCursor, this`cursor,
                            this`pointerSignals, this`nextHandle)
        decreases |eventListenerSubscriptions|
      {
        var t :| t in eventListenerSubscriptions;
        Unlisten(t);
      }
      assert forall h :: h !in attached;
    }

    /** `ngOnChanges` with a new `dragAxis`. */
    method SetDragAxis(x: bool, y: bool)
      requires Valid()
      modifies this
      ensures Valid()
      ensures dragAxis == DragAxis(x, y)
      ensures (x || y) && old(|eventListenerSubscriptions|) == 0 ==>
        eventListenerSubscriptions.Keys == StaticListeners
      ensures !(x || y) ==> eventListenerSubscriptions == map[] && attached == map[]
      ensures ((x || y) == (old(|eventListenerSubscriptions|) > 0)) ==>
        eventListenerSubscriptions == old(eventListenerSubscriptions) && attached == old(attached)
      ensures (x || y) <==> |eventListenerSubscriptions| > 0
      ensures unchanged(this`dragCursor, this`cursor, this`pointerSignals)
    {
      dragAxis := DragAxis(x, y);
      CheckEventListeners();
    }

    /** `onMouseDown` / `onTouchStart`: attach the document-wide move listener
        of the given type unless it is already attached, then push the press. */
    method OnPress(move: ListenerType, p: Pointer)
      requires Valid() && move in {MouseMove, TouchMove}
      modifies this
      ensures Valid()
      ensures move in old(eventListenerSubscriptions) ==>
        eventListenerSubscriptions == old(eventListenerSubscriptions) && attached == old(attached)
      ensures move !in old(eventListenerSubscriptions) ==>
        eventListenerSubscriptions == old(eventListenerSubscriptions)[move := old(nextHandle)]
      ensures pointerSignals == old(pointerSignals) + [Down(p)]
      ensures unchanged(this`dragAxis, this`dragCursor, this`cursor)
    {
      if move !in eventListenerSubscriptions {
        Listen(move);
      }
      pointerSignals := pointerSignals + [Down(p)];
    }

    /** `onMouseUp` / `onTouchEnd`: detach the move listener if there is one,
        then push the release. */
    method OnRelease(move: ListenerType, p: Pointer)
      requires Valid() && move in {MouseMove, TouchMove}
      modifies this
      ensures Valid()
      ensures eventListenerSubscriptions == old(eventListenerSubscriptions) - {move}
      ensures move in old(eventListenerSubscriptions) ==>
        attached == old(attached) - {old(eventListenerSubscriptions)[move]}
      ensures move !in old(eventListenerSubscriptions) ==> attached == old(attached)
      ensures pointerSignals == old(pointerSignals) + [Up(p)]
      ensures unchanged(this`dragAxis, this`dragCursor, this`cursor, this`nextHandle)
    {
      if move in eventListenerSubscriptions {
        Unlisten(move);
      }
      pointerSignals := pointerSignals + [Up(p)];
    }

    /** The DOM delivering a native event: a handler runs only while a
        listener of that type is attached. */
    method Dispatch(e: DomEvent)
      requires Valid()
      modifies this
      ensures Valid()
      ensures e.kind !in old(eventListenerSubscriptions) ==>
        eventListenerSubscriptions == old(eventListenerSubscriptions)
        && attached == old(attached) && pointerSignals == old(pointerSignals)
        && cursor == old(cursor)
      ensures e.kind in old(eventListenerSubscriptions) && e.kind in {MouseDown, TouchStart} ==>
        var move := if e.kind == MouseDown then MouseMove else TouchMove;
        && pointerSignals == old(pointerSignals) + [Down(e.p)]
        && move in eventListenerSubscriptions
        && (move in old(eventListenerSubscriptions) ==>
              eventListenerSubscriptions == old(eventListenerSubscriptions))
        && (move !in old(eventListenerSubscriptions) ==>
              eventListenerSubscriptions == old(eventListenerSubscriptions)[move := old(nextHandle)])
      ensures e.kind in old(eventListenerSubscriptions) && e.kind in {MouseUp, TouchEnd, TouchCancel} ==>
        var move := if e.kind == MouseUp then MouseMove else TouchMove;
        && pointerSignals == old(pointerSignals) + [Up(e.p)]
        && eventListenerSubscriptions == old(eventListenerSubscriptions) - {move}
      ensures e.kind in old(eventListenerSubscriptions) && e.kind in {MouseMove, TouchMove} ==>
        pointerSignals == old(pointerSignals) + [Move(e.p)]
        && eventListenerSubscriptions == old(eventListenerSubscriptions)
      ensures e.kind in old(eventListenerSubscriptions) && e.kind in {MouseEnter, MouseLeave} ==>
        && cursor == (if e.kind == MouseEnter then dragCursor else "")
        && pointerSignals == old(pointerSignals)
        && eventListenerSubscriptions == old(eventListenerSubscriptions)
      ensures e.kind !in {MouseEnter, MouseLeave} ==> cursor == old(cursor)
      ensures unchanged(this`dragAxis, this`dragCursor)
    {
      if e.kind in eventListenerSubscriptions {
        match e.kind
        case MouseDown => OnPress(MouseMove, e.p);
        case TouchStart => OnPress(TouchMove, e.p);
        case MouseUp => OnRelease(MouseMove, e.p);
        case TouchEnd => OnRelease(TouchMove, e.p);
        case TouchCancel => OnRelease(TouchMove, e.p);
        case MouseMove => pointerSignals := pointerSignals + [Move(e.p)];
        case TouchMove => pointerSignals := pointerSignals + [Move(e.p)];
        case MouseEnter => cursor := dragCursor;
        case MouseLeave => cursor := "";
      }
    }

    /** `ngOnDestroy`: every listener is removed. */
    method NgOnDestroy()
      requires Valid()
      modifies this
      ensures Valid()
      ensures eventListenerSubscriptions == map[] && attached == map[]
      ensures unchanged(this`dragAxis, this`dragCursor, this`cursor, this`pointerSignals)
    {
      UnsubscribeEventListeners();
    }
  }

  /** No event type ever has two live DOM listeners: in particular repeated
      presses never register a second move listener. */
  lemma AtMostOneListenerPerType(d: DraggableListeners, h1: nat, h2: nat)
    requires d.Valid()
    requires h1 in d.attached && h2 in d.attached
    requires d.attached[h1] == d.attached[h2]
    ensures h1 == h2
  {
    var t := d.attached[h1];
    assert d.eventListenerSubscriptions[t] == h1;
  }

  /** Re-running the check with an unchanged configuration changes nothing:
      after one `checkEventListeners` the table agrees with `canDrag`, so a
      second call takes neither branch. */
  method CheckIsIdempotent(d: DraggableListeners)
    returns (afterFirst: map<ListenerType, nat>, afterSecond: map<ListenerType, nat>)
    requires d.Valid()
    modifies d
    ensures d.Valid()
    ensures afterSecond == afterFirst && d.eventListenerSubscriptions == afterSecond
    ensures CanDrag(d.dragAxis) <==> |afterSecond| > 0
  {
    d.CheckEventListeners();
    afterFirst := d.eventListenerSubscriptions;
    d.CheckEventListeners();
    afterSecond := d.eventListenerSubscriptions;
  }
}
