/**
 * The move pipeline and the drag-session machine of the draggable directive
 * (projects/draggable-droppable/src/lib/draggable.directive.ts).
 *
 * The directive's RxJS pipeline is written as a step function over one input
 * at a time. The inputs are what reaches its subjects: a pointer press (with
 * the scroll position read at that moment), a pointer move, a scroll of the
 * scroll container or window (with the position read then), a release, a
 * call of the cancel handle, and the directive's destruction. The outputs are
 * the events the directive emits, in the order it emits them.
 *
 * For each move the pipeline takes the delta from the press, snaps it to the
 * grid (rounding to nearest), zeroes locked axes, adds the scroll delta and
 * filters through `validateDrag`; the first sample that passes starts the
 * drag. `dragging` is de-duplicated against the previous passing sample of
 * the directive's whole lifetime: `pairwise` runs over all sessions merged.
 */
module DraggableDirective {
  import opened DragTypes
  import opened Snapping
  import opened TraceMonitor

  /** The object the move pipeline builds for one sample. */
  datatype MoveData = MoveData(
    transformX: int, transformY: int,
    clientX: int, clientY: int,
    scrollLeft: int, scrollTop: int,
    x: int, y: int)

  /** One pass through the `map` stages: the raw delta from the press, then
      grid snapping, then axis lock, then the scroll compensation. */
  function MoveSample(cfg: Config, down: Pointer, move: Pointer,
                      start: ScrollPosition, scroll: ScrollPosition): (m: MoveData)
    ensures m.clientX == move.clientX && m.clientY == move.clientY
    ensures m.scrollLeft == scroll.left && m.scrollTop == scroll.top
    ensures !cfg.dragAxis.x ==> m.transformX == 0
    ensures !cfg.dragAxis.y ==> m.transformY == 0
    ensures cfg.dragAxis.x && cfg.dragSnapGrid.x == 0 ==>
      m.transformX == move.clientX - down.clientX
    ensures cfg.dragAxis.y && cfg.dragSnapGrid.y == 0 ==>
      m.transformY == move.clientY - down.clientY
    ensures cfg.dragAxis.x && cfg.dragSnapGrid.x != 0 ==>
      m.transformX == RoundToGrid(move.clientX - down.clientX, cfg.dragSnapGrid.x)
    ensures cfg.dragAxis.y && cfg.dragSnapGrid.y != 0 ==>
      m.transformY == RoundToGrid(move.clientY - down.clientY, cfg.dragSnapGrid.y)
    ensures m.x == m.transformX + (scroll.left - start.left)
    ensures m.y == m.transformY + (scroll.top - start.top)
  {
    var transformX := move.clientX - down.clientX;
    var transformY := move.clientY - down.clientY;
    var snappedX := SnapRound(transformX, cfg.dragSnapGrid.x);
    var snappedY := SnapRound(transformY, cfg.dragSnapGrid.y);
    var lockedX := if !cfg.dragAxis.x then 0 else snappedX;
    var lockedY := if !cfg.dragAxis.y then 0 else snappedY;
    MoveData(lockedX, lockedY, move.clientX, move.clientY, scroll.left, scroll.top,
             lockedX + (scroll.left - start.left), lockedY + (scroll.top - start.top))
  }

  function Coords(m: MoveData): Coordinates {
    Coordinates(m.x, m.y)
  }

  datatype Input =
    | PointerDown(pointer: Pointer, scroll: ScrollPosition)
    | PointerMove(pointer: Pointer)
    | Scroll(scroll: ScrollPosition)
    | PointerUp
    | CancelDrag
    | Destroy

  datatype Output =
    | DragPointerDown(at: Coordinates)
    | DragStart
    | GhostElementCreated
    /** `draggableHelper.currentDrag.next(currentDrag$)`: droppables see a new drag. */
    | DragStreamOpened
    | Dragging(at: Coordinates)
    /** The ghost's CSS `translate(transformX, transformY)`. */
    | GhostMoved(transformX: int, transformY: int)
    /** `currentDrag$.next({ clientX, clientY, dropData })`. */
    | DragSample(pointer: Pointer)
    | DragEnd(at: Coordinates, dragCancelled: bool)
    /** `currentDrag$.complete()`: droppables see the drop. */
    | DragStreamCompleted

  /** The closure state of one press: the press itself, the scroll position
      at the press, the latest scroll position and move (`combineLatest`),
      and the latest sample that passed validation (`takeLast(1)`); the drag
      has started exactly when `last` is set. */
  datatype Session = Session(
    down: Pointer,
    startScroll: ScrollPosition,
    scroll: ScrollPosition,
    lastMove: Option<Pointer>,
    last: Option<MoveData>)

  datatype Phase = Idle | Active(session: Session) | Destroyed

  /** `previous` is the `pairwise` memory: the coordinates of the latest
      passing sample of any session. `ghostElement` says whether the
      directive's `ghostElement` field is set. */
  datatype State = State(phase: Phase, previous: Option<Coordinates>, ghostElement: bool)

  const Init: State := State(Idle, None, false)

  datatype Transition = Transition(state: State, outputs: seq<Output>)

  function NewSession(down: Pointer, scroll: ScrollPosition): Session {
    Session(down, scroll, scroll, None, None)
  }

  /** A sample reaching the pipeline: a move, or a scroll once a move has
      been seen. */
  function OnSample(cfg: Config, st: State, s: Session, p: Pointer): (t: Transition)
    ensures t.state.phase.Active?
    ensures t.state.phase.session.down == s.down
    ensures t.state.phase.session.lastMove == Some(p)
    ensures var m := MoveSample(cfg, s.down, p, s.startScroll, s.scroll);
      if cfg.validateDrag(Coords(m)) then
        t.state.phase.session.last == Some(m) && t.state.previous == Some(Coords(m))
      else
        t.state.phase.session.last == s.last && t.state.previous == st.previous && t.outputs == []
  {
    var m := MoveSample(cfg, s.down, p, s.startScroll, s.scroll);
    var c := Coords(m);
    var s1 := s.(lastMove := Some(p));
    if !cfg.validateDrag(c) then
      Transition(st.(phase := Active(s1)), [])
    else
      var first := s.last.None?;
      var hasGhost := if first then st.ghostElement || cfg.ghostDragEnabled else st.ghostElement;
      var started :=
        if first then [DragStart] + (if cfg.ghostDragEnabled then [GhostElementCreated] else []) + [DragStreamOpened]
        else [];
      var moved :=
        if st.previous != Some(c) then
          [Dragging(c)] + (if hasGhost then [GhostMoved(m.transformX, m.transformY)] else []) + [DragSample(p)]
        else [];
      Transition(State(Active(s1.(last := Some(m))), Some(c), hasGhost), started + moved)
  }

  /** The end of a session (`takeUntil(dragComplete$)` firing): `dragEnd`
      with the last passing sample, if there was one. */
  function EndSession(cfg: Config, st: State, s: Session, cancelled: bool): (t: Transition)
    ensures t.state.phase == Idle && t.state.previous == st.previous
    ensures s.last.None? ==> t.outputs == [] && t.state.ghostElement == st.ghostElement
    ensures s.last.Some? ==>
      t.outputs == [DragEnd(Coords(s.last.value), cancelled), DragStreamCompleted]
  {
    match s.last
    case None => Transition(st.(phase := Idle), [])
    case Some(m) =>
      Transition(State(Idle, st.previous, if cfg.ghostDragEnabled then false else st.ghostElement),
                 [DragEnd(Coords(m), cancelled), DragStreamCompleted])
  }

  /** One input. A press while a session is active first starts the new
      session (the outer `mergeMap` is the first subscriber of
      `pointerDown$`) and then ends the old one. The cancel handle reaches
      the application only with `dragStart`, so a cancel before the drag has
      started has no session to act on. */
  function Next(cfg: Config, st: State, input: Input): (t: Transition)
    ensures t.state.phase.Destroyed? <==> st.phase.Destroyed? || input == Destroy
    ensures st.phase.Destroyed? ==> t == Transition(st, [])
    ensures DragPointerDown(Coordinates(0, 0)) in t.outputs <==>
      !st.phase.Destroyed? && input.PointerDown? && CanDrag(cfg.dragAxis)
  {
    match st.phase
    case Destroyed => Transition(st, [])
    case Idle =>
      (match input
       case PointerDown(p, sc) =>
         if CanDrag(cfg.dragAxis) then
           Transition(st.(phase := Active(NewSession(p, sc))), [DragPointerDown(Coordinates(0, 0))])
         else Transition(st, [])
       case Destroy => Transition(st.(phase := Destroyed), [])
       case _ => Transition(st, []))
    case Active(s) =>
      match input
      case PointerMove(p) => OnSample(cfg, st, s, p)
      case Scroll(sc) =>
        var s1 := s.(scroll := sc);
        (match s.lastMove
         case None => Transition(st.(phase := Active(s1)), [])
         case Some(p) => OnSample(cfg, st, s1, p))
      case PointerUp => EndSession(cfg, st, s, false)
      case CancelDrag =>
        if s.last.Some? then EndSession(cfg, st, s, true) else Transition(st, [])
      case Destroy =>
        var e := EndSession(cfg, st, s, false);
        Transition(e.state.(phase := Destroyed), e.outputs)
      case PointerDown(p, sc) =>
        var e := EndSession(cfg, st, s, false);
        if CanDrag(cfg.dragAxis) then
          Transition(e.state.(phase := Active(NewSession(p, sc))),
                     [DragPointerDown(Coordinates(0, 0))] + e.outputs)
        else e
  }

  /** The directive fed a whole trace of inputs. */
  function Run(cfg: Config, st: State, inputs: seq<Input>): (r: Transition)
    ensures r.state.phase.Destroyed? <==> st.phase.Destroyed? || Destroy in inputs
    decreases |inputs|
  {
    if inputs == [] then Transition(st, [])
    else
      var t := Next(cfg, st, inputs[0]);
      var r := Run(cfg, t.state, inputs[1..]);
      Transition(r.state, t.outputs + r.outputs)
  }

  // -----------------------------------------------------------------------
  // Properties of one step

  predicate Started(st: State) {
    st.phase.Active? && st.phase.session.last.Some?
  }

  /** The sample that starts a drag: `dragStart` is emitted exactly on the
      first sample of a session that passes `validateDrag`. */
  lemma DragStartOnFirstPassingSample(cfg: Config, st: State, input: Input)
    ensures DragStart in Next(cfg, st, input).outputs <==>
      && st.phase.Active? && st.phase.session.last.None?
      && Started(Next(cfg, st, input).state)
      && (input.PointerMove? || input.Scroll?)
  {
    var t := Next(cfg, st, input);
    if st.phase.Active? && (input.PointerMove? || input.Scroll?) {
      var s := st.phase.session;
      var s1 := if input.Scroll? then s.(scroll := input.scroll) else s;
      if input.PointerMove? || s.lastMove.Some? {
        var p := if input.PointerMove? then input.pointer else s.lastMove.value;
        var m := MoveSample(cfg, s1.down, p, s1.startScroll, s1.scroll);
        if cfg.validateDrag(Coords(m)) && st.previous != Some(Coords(m)) {
          assert DragStart !in [Dragging(Coords(m))] + (if t.state.ghostElement then [GhostMoved(m.transformX, m.transformY)] else []) + [DragSample(p)];
        }
      }
    }
  }

  /** `dragging` is emitted for a passing sample, whether a move or a
      scroll after a move produced it, exactly when its coordinates differ
      from those of the previous passing sample, and then carries them. A
      scroll before any move emits nothing. */
  lemma DraggingIffChanged(cfg: Config, st: State, s: Session, input: Input, c: Coordinates)
    requires st.phase == Active(s)
    requires input.PointerMove? || input.Scroll?
    ensures var t := Next(cfg, st, input);
      if input.Scroll? && s.lastMove.None? then t.outputs == []
      else
        var s1 := if input.Scroll? then s.(scroll := input.scroll) else s;
        var p := if input.PointerMove? then input.pointer else s.lastMove.value;
        var m := MoveSample(cfg, s1.down, p, s1.startScroll, s1.scroll);
        (Dragging(c) in t.outputs <==>
           cfg.validateDrag(Coords(m)) && c == Coords(m) && st.previous != Some(c))
  {
    if input.PointerMove? || s.lastMove.Some? {
      var s1 := if input.Scroll? then s.(scroll := input.scroll) else s;
      var p := if input.PointerMove? then input.pointer else s.lastMove.value;
      var m := MoveSample(cfg, s1.down, p, s1.startScroll, s1.scroll);
      if cfg.validateDrag(Coords(m)) {
        var started :=
          if s.last.None? then [DragStart] + (if cfg.ghostDragEnabled then [GhostElementCreated] else []) + [DragStreamOpened]
          else [];
        assert Dragging(c) !in started;
      }
    }
  }

  /** `dragEnd` is emitted only by a started session and carries its last
      passing sample; `dragCancelled` is set exactly when the session is
      ended by the cancel handle. */
  lemma DragEndOfStartedSession(cfg: Config, st: State, input: Input, c: Coordinates, cancelled: bool)
    requires DragEnd(c, cancelled) in Next(cfg, st, input).outputs
    ensures Started(st) && c == Coords(st.phase.session.last.value)
    ensures cancelled <==> input == CancelDrag
  {
  }

  /** Which inputs end a session: a release, a new press, a cancel of a
      started drag and destruction; a new press the directive accepts opens
      a fresh session, and only destruction is final. */
  lemma SessionEnd(cfg: Config, st: State, input: Input)
    requires st.phase.Active?
    ensures input == PointerUp ==> Next(cfg, st, input).state.phase == Idle
    ensures input == Destroy ==> Next(cfg, st, input).state.phase == Destroyed
    ensures input == CancelDrag ==>
      Next(cfg, st, input).state.phase == (if Started(st) then Idle else st.phase)
    ensures input.PointerDown? ==>
      Next(cfg, st, input).state.phase ==
        (if CanDrag(cfg.dragAxis) then Active(NewSession(input.pointer, input.scroll)) else Idle)
    ensures (input.PointerMove? || input.Scroll?) ==> Next(cfg, st, input).state.phase.Active?
  {
  }

  /** Once destroyed, the directive ignores every further input. */
  lemma DestroyedIsFinal(cfg: Config, inputs: seq<Input>, previous: Option<Coordinates>, hasGhost: bool)
    ensures Run(cfg, State(Destroyed, previous, hasGhost), inputs) ==
      Transition(State(Destroyed, previous, hasGhost), [])
    decreases |inputs|
  {
    if inputs != [] {
      DestroyedIsFinal(cfg, inputs[1..], previous, hasGhost);
    }
  }

  // -----------------------------------------------------------------------
  // Properties of whole output traces

  /** A monitor over the emitted events: `open` is true between a
      `dragStart` and its `dragEnd`, and `lastDragging` holds the
      coordinates of the latest `dragging` event. */
  datatype Watch = Watch(open: bool, lastDragging: Option<Coordinates>)

  /** The monitor's reaction to one event; None marks a violation:
      a `dragStart` inside a drag, a `dragging` outside a drag or equal to
      the previous `dragging`, or a `dragEnd` outside a drag or at other
      coordinates than the latest `dragging`. */
  function WatchStep(w: Watch, o: Output): Option<Watch> {
    match o
    case DragStart => if w.open then None else Some(w.(open := true))
    case Dragging(c) =>
      if !w.open || w.lastDragging == Some(c) then None else Some(w.(lastDragging := Some(c)))
    case DragEnd(c, _) =>
      if !w.open || w.lastDragging != Some(c) then None else Some(w.(open := false))
    case _ => Some(w)
  }

  /** What the monitor should have seen, given the directive's state. */
  function WatchOf(st: State): Watch {
    Watch(Started(st), st.previous)
  }

  /** The state invariant behind the trace properties: in a started session
      the de-duplication memory holds the session's last passing sample. */
  predicate Inv(st: State) {
    Started(st) ==> st.previous == Some(Coords(st.phase.session.last.value))
  }

  lemma ObserveNoDragEvents(w: Watch, outs: seq<Output>)
    requires forall i :: 0 <= i < |outs| ==>
      !outs[i].DragStart? && !outs[i].Dragging? && !outs[i].DragEnd?
    ensures Observe(WatchStep, w, outs) == Some(w)
    decreases |outs|
  {
    if outs != [] {
      ObserveNoDragEvents(w, outs[1..]);
    }
  }

  lemma SampleIsWatched(cfg: Config, st: State, s: Session, p: Pointer)
    requires Inv(st) && st.phase.Active? && st.phase.session.last == s.last
    ensures var t := OnSample(cfg, st, s, p);
      Inv(t.state) && Observe(WatchStep, WatchOf(st), t.outputs) == Some(WatchOf(t.state))
  {
    var m := MoveSample(cfg, s.down, p, s.startScroll, s.scroll);
    var c := Coords(m);
    var t := OnSample(cfg, st, s, p);
    if cfg.validateDrag(c) {
      var first := s.last.None?;
      var hasGhost := if first then st.ghostElement || cfg.ghostDragEnabled else st.ghostElement;
      var extra := if cfg.ghostDragEnabled then [GhostElementCreated] else [];
      var started := if first then [DragStart] + extra + [DragStreamOpened] else [];
      var tail := (if hasGhost then [GhostMoved(m.transformX, m.transformY)] else []) + [DragSample(p)];
      var moved := if st.previous != Some(c) then [Dragging(c)] + tail else [];
      assert t.outputs == started + moved;
      var w1 := Watch(true, st.previous);
      if first {
        ObserveAppend(WatchStep, WatchOf(st), [DragStart], extra + [DragStreamOpened]);
        ObserveNoDragEvents(w1, extra + [DragStreamOpened]);
        assert started == [DragStart] + (extra + [DragStreamOpened]);
        assert Observe(WatchStep, WatchOf(st), started) == Some(w1);
      } else {
        assert Observe(WatchStep, WatchOf(st), started) == Some(w1);
      }
      ObserveAppend(WatchStep, WatchOf(st), started, moved);
      if st.previous != Some(c) {
        ObserveAppend(WatchStep, w1, [Dragging(c)], tail);
        ObserveNoDragEvents(w1.(lastDragging := Some(c)), tail);
      }
    }
  }

  lemma EndIsWatched(cfg: Config, st: State, s: Session, cancelled: bool)
    requires Inv(st) && st.phase == Active(s)
    ensures var t := EndSession(cfg, st, s, cancelled);
      Inv(t.state) && Observe(WatchStep, WatchOf(st), t.outputs) == Some(WatchOf(t.state))
  {
    if s.last.Some? {
      ObserveAppend(WatchStep, WatchOf(st), [DragEnd(Coords(s.last.value), cancelled)], [DragStreamCompleted]);
    }
  }

  lemma StepIsWatched(cfg: Config, st: State, input: Input)
    requires Inv(st)
    ensures var t := Next(cfg, st, input);
      Inv(t.state) && Observe(WatchStep, WatchOf(st), t.outputs) == Some(WatchOf(t.state))
  {
    var t := Next(cfg, st, input);
    match st.phase
    case Destroyed =>
    case Idle =>
    case Active(s) =>
      match input
      case PointerMove(p) => SampleIsWatched(cfg, st, s, p);
      case Scroll(sc) =>
        if s.lastMove.Some? {
          SampleIsWatched(cfg, st, s.(scroll := sc), s.lastMove.value);
        }
      case PointerUp => EndIsWatched(cfg, st, s, false);
      case CancelDrag => EndIsWatched(cfg, st, s, true);
      case Destroy => EndIsWatched(cfg, st, s, false);
      case PointerDown(p, sc) =>
        EndIsWatched(cfg, st, s, false);
        var e := EndSession(cfg, st, s, false);
        if CanDrag(cfg.dragAxis) {
          ObserveAppend(WatchStep, WatchOf(st), [DragPointerDown(Coordinates(0, 0))], e.outputs);
        }
  }

  /** Over any trace from the initial state: `dragStart` and `dragEnd`
      alternate, starting with `dragStart`; `dragging` is emitted only
      during a drag and never twice in a row with the same coordinates; and
      every `dragEnd` carries the coordinates of the latest `dragging`. */
  lemma {:induction false} TraceIsWatched(cfg: Config, st: State, inputs: seq<Input>)
    requires Inv(st)
    ensures var r := Run(cfg, st, inputs);
      Inv(r.state) && Observe(WatchStep, WatchOf(st), r.outputs) == Some(WatchOf(r.state))
    decreases |inputs|
  {
    if inputs != [] {
      var t := Next(cfg, st, inputs[0]);
      StepIsWatched(cfg, st, inputs[0]);
      TraceIsWatched(cfg, t.state, inputs[1..]);
      ObserveAppend(WatchStep, WatchOf(st), t.outputs, Run(cfg, t.state, inputs[1..]).outputs);
    }
  }

  lemma TraceFromInitIsWatched(cfg: Config, inputs: seq<Input>)
    ensures Observe(WatchStep, Watch(false, None), Run(cfg, Init, inputs).outputs).Some?
  {
    TraceIsWatched(cfg, Init, inputs);
  }

  /** Samples that never pass `validateDrag` never start a drag: the only
      events emitted are the `dragPointerDown` of each press. */
  lemma {:induction false} NoPassingSampleNoDrag(cfg: Config, st: State, inputs: seq<Input>)
    requires forall c :: !cfg.validateDrag(c)
    requires !Started(st)
    ensures !Started(Run(cfg, st, inputs).state)
    ensures forall o :: o in Run(cfg, st, inputs).outputs ==> o == DragPointerDown(Coordinates(0, 0))
    decreases |inputs|
  {
    if inputs != [] {
      var t := Next(cfg, st, inputs[0]);
      NoPassingSampleNoDrag(cfg, t.state, inputs[1..]);
    }
  }

  /** The moves of a trace, one input per pointer position. */
  function Moves(ms: seq<Pointer>): (inputs: seq<Input>)
    ensures |inputs| == |ms|
    ensures forall i :: 0 <= i < |ms| ==> inputs[i] == PointerMove(ms[i])
  {
    seq(|ms|, i requires 0 <= i < |ms| => PointerMove(ms[i]))
  }

  /** Moves whose own samples all fail `validateDrag`, then a release: the
      session never starts and ends silently. */
  lemma {:induction false} FailingMovesThenRelease(cfg: Config, st: State, ms: seq<Pointer>)
    requires st.phase.Active? && st.phase.session.last.None?
    requires var s := st.phase.session;
      forall i :: 0 <= i < |ms| ==>
        !cfg.validateDrag(Coords(MoveSample(cfg, s.down, ms[i], s.startScroll, s.scroll)))
    ensures var r := Run(cfg, st, Moves(ms) + [PointerUp]);
      r.outputs == [] && r.state == State(Idle, st.previous, st.ghostElement)
    decreases |ms|
  {
    var inputs := Moves(ms) + [PointerUp];
    var s := st.phase.session;
    if ms == [] {
      assert inputs == [PointerUp];
      assert inputs[1..] == [];
    } else {
      assert inputs[0] == PointerMove(ms[0]);
      var t := Next(cfg, st, inputs[0]);
      assert t == Transition(st.(phase := Active(s.(lastMove := Some(ms[0])))), []);
      assert inputs[1..] == Moves(ms[1..]) + [PointerUp];
      FailingMovesThenRelease(cfg, t.state, ms[1..]);
    }
  }

  /** A press, moves whose samples all fail `validateDrag`, and a release:
      the directive reports the press and nothing else, neither `dragStart`
      nor `dragEnd`, and is back where it was. */
  lemma FailingSessionIsSilent(cfg: Config, st: State, p: Pointer, sc: ScrollPosition, ms: seq<Pointer>)
    requires st.phase == Idle && CanDrag(cfg.dragAxis)
    requires forall i :: 0 <= i < |ms| ==> !cfg.validateDrag(Coords(MoveSample(cfg, p, ms[i], sc, sc)))
    ensures var r := Run(cfg, st, [PointerDown(p, sc)] + Moves(ms) + [PointerUp]);
      r.outputs == [DragPointerDown(Coordinates(0, 0))] && r.state == st
  {
    var inputs := [PointerDown(p, sc)] + Moves(ms) + [PointerUp];
    var t := Next(cfg, st, inputs[0]);
    assert t.state == st.(phase := Active(NewSession(p, sc)));
    assert inputs[1..] == Moves(ms) + [PointerUp];
    FailingMovesThenRelease(cfg, t.state, ms);
  }

  /** The press-move-move-release example with default inputs: one
      `dragStart`, `dragging` at (2, 0) and (2, -2), and one `dragEnd` at
      (2, -2) that is not cancelled. */
  lemma PressMoveRelease()
    ensures var cfg := Config(DragAxis(true, true), SnapGrid(0, 0), true, c => true);
      var sc := ScrollPosition(0, 0);
      Run(cfg, Init, [PointerDown(Pointer(5, 10), sc), PointerMove(Pointer(7, 10)),
                      PointerMove(Pointer(7, 8)), PointerUp]).outputs ==
        [DragPointerDown(Coordinates(0, 0)),
         DragStart, GhostElementCreated, DragStreamOpened,
         Dragging(Coordinates(2, 0)), GhostMoved(2, 0), DragSample(Pointer(7, 10)),
         Dragging(Coordinates(2, -2)), GhostMoved(2, -2), DragSample(Pointer(7, 8)),
         DragEnd(Coordinates(2, -2), false), DragStreamCompleted]
  {
    var cfg := Config(DragAxis(true, true), SnapGrid(0, 0), true, c => true);
    var sc := ScrollPosition(0, 0);
    var inputs := [PointerDown(Pointer(5, 10), sc), PointerMove(Pointer(7, 10)),
                   PointerMove(Pointer(7, 8)), PointerUp];
    var t1 := Next(cfg, Init, inputs[0]);
    var t2 := Next(cfg, t1.state, inputs[1]);
    var t3 := Next(cfg, t2.state, inputs[2]);
    var t4 := Next(cfg, t3.state, inputs[3]);
    assert t1.outputs == [DragPointerDown(Coordinates(0, 0))];
    assert t2.outputs == [DragStart, GhostElementCreated, DragStreamOpened,
                          Dragging(Coordinates(2, 0)), GhostMoved(2, 0), DragSample(Pointer(7, 10))];
    assert t3.outputs == [Dragging(Coordinates(2, -2)), GhostMoved(2, -2), DragSample(Pointer(7, 8))];
    assert t4.outputs == [DragEnd(Coordinates(2, -2), false), DragStreamCompleted];
    assert Run(cfg, t4.state, inputs[4..]).outputs == [];
    assert Run(cfg, t3.state, inputs[3..]).outputs == t4.outputs;
    assert Run(cfg, t2.state, inputs[2..]).outputs == t3.outputs + t4.outputs;
    assert Run(cfg, t1.state, inputs[1..]).outputs == t2.outputs + t3.outputs + t4.outputs;
  }

  /** The cancel handle ends a started drag at once, with `dragCancelled`;
      later moves have no session to act on. */
  lemma CancelForcesEnd()
    ensures var cfg := Config(DragAxis(true, true), SnapGrid(0, 0), true, c => true);
      var sc := ScrollPosition(0, 0);
      var r := Run(cfg, Init, [PointerDown(Pointer(5, 10), sc), PointerMove(Pointer(7, 10)),
                               CancelDrag, PointerMove(Pointer(9, 10))]);
      && r.outputs == [DragPointerDown(Coordinates(0, 0)),
                       DragStart, GhostElementCreated, DragStreamOpened,
                       Dragging(Coordinates(2, 0)), GhostMoved(2, 0), DragSample(Pointer(7, 10)),
                       DragEnd(Coordinates(2, 0), true), DragStreamCompleted]
      && r.state == State(Idle, Some(Coordinates(2, 0)), false)
  {
    var cfg := Config(DragAxis(true, true), SnapGrid(0, 0), true, c => true);
    var sc := ScrollPosition(0, 0);
    var inputs := [PointerDown(Pointer(5, 10), sc), PointerMove(Pointer(7, 10)),
                   CancelDrag, PointerMove(Pointer(9, 10))];
    var t1 := Next(cfg, Init, inputs[0]);
    var t2 := Next(cfg, t1.state, inputs[1]);
    var t3 := Next(cfg, t2.state, inputs[2]);
    var t4 := Next(cfg, t3.state, inputs[3]);
    assert t1.state == State(Active(NewSession(Pointer(5, 10), sc)), None, false);
    assert t2.outputs == [DragStart, GhostElementCreated, DragStreamOpened,
                          Dragging(Coordinates(2, 0)), GhostMoved(2, 0), DragSample(Pointer(7, 10))];
    assert t3.state == State(Idle, Some(Coordinates(2, 0)), false);
    assert t3.outputs == [DragEnd(Coordinates(2, 0), true), DragStreamCompleted];
    assert t4 == Transition(State(Idle, Some(Coordinates(2, 0)), false), []);
    assert inputs[1..][1..][1..] == [inputs[3]];
    assert [inputs[3]][1..] == [];
    assert Run(cfg, t4.state, []) == Transition(t4.state, []);
    var r3 := Run(cfg, t3.state, [inputs[3]]);
    assert r3 == t4;
    var r2 := Run(cfg, t2.state, inputs[1..][1..]);
    assert r2 == Transition(t4.state, t3.outputs);
    var r1 := Run(cfg, t1.state, inputs[1..]);
    assert r1 == Transition(t4.state, t2.outputs + t3.outputs);
  }
}
