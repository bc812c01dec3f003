/**
 * The older draggable directive (src/draggable.directive.ts): floor
 * snapping, no scroll compensation, and a session that starts at the press.
 *
 * At the press the directive emits `dragStart` {0, 0}, opens the drag
 * stream for the droppables, subscribes the `takeLast(1)` chain that will
 * report `dragEnd`, and then pushes the press itself into `pointerMove` as a
 * zero-delta sample. That injected sample reaches only the chains already
 * subscribed to `pointerMove` at that moment: the new session's `dragEnd`
 * chain and, when a previous session is still running, both chains of that
 * previous session (the previous session ends only afterwards, when its
 * `takeUntil` sees the same press). The new session's `dragging` chain is
 * subscribed after the injection and never sees it.
 */
module LegacyDraggableDirective {
  import opened DragTypes
  import opened Snapping
  import opened TraceMonitor

  /** The three `map` stages: delta from the press, floor snapping, axis lock. */
  function MoveSample(cfg: Config, down: Pointer, move: Pointer): (c: Coordinates)
    ensures !cfg.dragAxis.x ==> c.x == 0
    ensures !cfg.dragAxis.y ==> c.y == 0
    ensures cfg.dragAxis.x && cfg.dragSnapGrid.x == 0 ==> c.x == move.clientX - down.clientX
    ensures cfg.dragAxis.y && cfg.dragSnapGrid.y == 0 ==> c.y == move.clientY - down.clientY
    ensures cfg.dragAxis.x && cfg.dragSnapGrid.x != 0 ==>
      c.x == FloorToGrid(move.clientX - down.clientX, cfg.dragSnapGrid.x)
    ensures cfg.dragAxis.y && cfg.dragSnapGrid.y != 0 ==>
      c.y == FloorToGrid(move.clientY - down.clientY, cfg.dragSnapGrid.y)
  {
    var x := SnapFloor(move.clientX - down.clientX, cfg.dragSnapGrid.x);
    var y := SnapFloor(move.clientY - down.clientY, cfg.dragSnapGrid.y);
    Coordinates(if !cfg.dragAxis.x then 0 else x, if !cfg.dragAxis.y then 0 else y)
  }

  /** The injected press is a zero sample, whatever the grid and the axes. */
  lemma InjectedSampleIsZero(cfg: Config, down: Pointer)
    ensures MoveSample(cfg, down, down) == Coordinates(0, 0)
  {
    if cfg.dragSnapGrid.x != 0 {
      FloorToGridUnique(0, cfg.dragSnapGrid.x, 0);
    }
    if cfg.dragSnapGrid.y != 0 {
      FloorToGridUnique(0, cfg.dragSnapGrid.y, 0);
    }
  }

  datatype Input = PointerDown(pointer: Pointer) | PointerMove(pointer: Pointer) | PointerUp | Destroy

  datatype Output =
    | DragStart(at: Coordinates)
    /** `draggableHelper.currentDrag.next(currentDrag)`. */
    | DragStreamOpened
    | Dragging(at: Coordinates)
    /** `setCssTransform('translate(x, y)')`, applied when `ghostDragEnabled`. */
    | ElementMoved(x: int, y: int)
    /** `currentDrag.next({ clientX, clientY, dropData })`. */
    | DragSample(pointer: Pointer)
    | DragEnd(at: Coordinates)
    /** `currentDrag.complete()`. */
    | DragStreamCompleted
    /** `setCssTransform(null)`, applied when `ghostDragEnabled`. */
    | ElementReset

  /** One press: its position and the latest sample its `dragEnd` chain
      has let through. */
  datatype Session = Session(down: Pointer, last: Option<Coordinates>)

  datatype Phase = Idle | Active(session: Session) | Destroyed

  /** `previous` is the `pairwise` memory of the `dragging` chain. */
  datatype State = State(phase: Phase, previous: Option<Coordinates>)

  const Init: State := State(Idle, None)

  datatype Transition = Transition(state: State, outputs: seq<Output>)

  /** A sample reaching a session's `dragging` chain. */
  function DraggingChain(cfg: Config, previous: Option<Coordinates>, c: Coordinates, p: Pointer)
    : (r: (Option<Coordinates>, seq<Output>))
    ensures cfg.validateDrag(c) ==> r.0 == Some(c)
    ensures !cfg.validateDrag(c) ==> r.0 == previous && r.1 == []
    ensures Dragging(c) in r.1 <==> cfg.validateDrag(c) && previous != Some(c)
  {
    if !cfg.validateDrag(c) then (previous, [])
    else if previous == Some(c) then (Some(c), [])
    else (Some(c), [Dragging(c)] + (if cfg.ghostDragEnabled then [ElementMoved(c.x, c.y)] else []) + [DragSample(p)])
  }

  /** A sample reaching a session's `dragEnd` chain. */
  function EndChain(cfg: Config, s: Session, c: Coordinates): (s': Session)
    ensures s'.down == s.down
    ensures s'.last == if cfg.validateDrag(c) then Some(c) else s.last
  {
    if cfg.validateDrag(c) then s.(last := Some(c)) else s
  }

  /** A session's `takeUntil` firing, or `pointerMove` completing. */
  function EndOutputs(cfg: Config, s: Session): (outs: seq<Output>)
    ensures s.last.None? ==> outs == []
    ensures s.last.Some? ==> |outs| > 0 && outs[0] == DragEnd(s.last.value)
  {
    match s.last
    case None => []
    case Some(c) => [DragEnd(c), DragStreamCompleted] + (if cfg.ghostDragEnabled then [ElementReset] else [])
  }

  /** A press: the new session's start and injected sample, the injected
      sample reaching a running session, then that session's end. */
  function Press(cfg: Config, st: State, p: Pointer): (t: Transition)
    ensures CanDrag(cfg.dragAxis) ==>
      && t.state.phase == Active(Session(p, if cfg.validateDrag(Coordinates(0, 0)) then Some(Coordinates(0, 0)) else None))
      && |t.outputs| >= 2 && t.outputs[..2] == [DragStart(Coordinates(0, 0)), DragStreamOpened]
    ensures !CanDrag(cfg.dragAxis) ==>
      && t.state.phase == (if st.phase.Destroyed? then Destroyed else Idle)
      && forall i :: 0 <= i < |t.outputs| ==> !t.outputs[i].DragStart?
  {
    InjectedSampleIsZero(cfg, p);
    var zero := MoveSample(cfg, p, p);
    var started := EndChain(cfg, Session(p, None), zero);
    match st.phase
    case Active(running) =>
      var c := MoveSample(cfg, running.down, p);
      var ended := EndChain(cfg, running, c);
      var (previous, moved) := DraggingChain(cfg, st.previous, c, p);
      if CanDrag(cfg.dragAxis) then
        Transition(State(Active(started), previous),
                   [DragStart(Coordinates(0, 0)), DragStreamOpened] + moved + EndOutputs(cfg, ended))
      else
        Transition(State(Idle, st.previous), EndOutputs(cfg, running))
    case _ =>
      if CanDrag(cfg.dragAxis) then
        Transition(State(Active(started), st.previous), [DragStart(Coordinates(0, 0)), DragStreamOpened])
      else Transition(st, [])
  }

  function Next(cfg: Config, st: State, input: Input): (t: Transition)
    ensures t.state.phase.Destroyed? <==> st.phase.Destroyed? || input == Destroy
    ensures st.phase.Destroyed? ==> t == Transition(st, [])
  {
    match st.phase
    case Destroyed => Transition(st, [])
    case Idle =>
      (match input
       case PointerDown(p) => Press(cfg, st, p)
       case Destroy => Transition(st.(phase := Destroyed), [])
       case _ => Transition(st, []))
    case Active(s) =>
      match input
      case PointerDown(p) => Press(cfg, st, p)
      case PointerMove(p) =>
        var c := MoveSample(cfg, s.down, p);
        var (previous, moved) := DraggingChain(cfg, st.previous, c, p);
        Transition(State(Active(EndChain(cfg, s, c)), previous), moved)
      case PointerUp => Transition(st.(phase := Idle), EndOutputs(cfg, s))
      case Destroy => Transition(st.(phase := Destroyed), EndOutputs(cfg, s))
  }

  function Run(cfg: Config, st: State, inputs: seq<Input>): (r: Transition)
    ensures r.state.phase.Destroyed? <==> st.phase.Destroyed? || Destroy in inputs
    decreases |inputs|
  {
    if inputs == [] then Transition(st, [])
    else
      var t := Next(cfg, st, inputs[0]);
      var r := Run(cfg, t.state, inputs[1..]);
      Transition(r.state, t.outputs + r.outputs)
  }

  // -----------------------------------------------------------------------
  // Properties

  /** Every accepted press starts a drag at once, with `dragStart` {0, 0}. */
  lemma PressStartsDrag(cfg: Config, st: State, p: Pointer)
    requires !st.phase.Destroyed?
    ensures var t := Next(cfg, st, PointerDown(p));
      CanDrag(cfg.dragAxis) <==> (|t.outputs| >= 2 && t.outputs[..2] == [DragStart(Coordinates(0, 0)), DragStreamOpened])
    ensures CanDrag(cfg.dragAxis) ==> Next(cfg, st, PointerDown(p)).state.phase.Active?
  {
    var t := Next(cfg, st, PointerDown(p));
    if !CanDrag(cfg.dragAxis) && st.phase.Active? && st.phase.session.last.Some? {
      assert t.outputs[0] == DragEnd(st.phase.session.last.value);
    }
  }

  /** A session ends at the next release, the next press (accepted or not)
      or destruction, and its `dragEnd` carries the last sample its
      `dragEnd` chain let through. */
  lemma ReleaseEndsSession(cfg: Config, st: State, s: Session, p: Pointer)
    requires st.phase == Active(s)
    ensures Next(cfg, st, PointerUp).state.phase == Idle
    ensures Next(cfg, st, Destroy).state.phase == Destroyed
    ensures s.last.Some? ==> Next(cfg, st, PointerUp).outputs[0] == DragEnd(s.last.value)
    ensures s.last.None? ==> Next(cfg, st, PointerUp).outputs == []
    ensures s.last.Some? ==> Next(cfg, st, Destroy).outputs[0] == DragEnd(s.last.value)
    ensures s.last.None? ==> Next(cfg, st, Destroy).outputs == []
    // A press first reaches the running session's `dragEnd` chain as a
    // sample (only when it is accepted), then ends that session.
    ensures var ended := if CanDrag(cfg.dragAxis) then EndChain(cfg, s, MoveSample(cfg, s.down, p)) else s;
      var t := Next(cfg, st, PointerDown(p));
      && (ended.last.Some? ==> DragEnd(ended.last.value) in t.outputs)
      && (ended.last.None? ==> forall i :: 0 <= i < |t.outputs| ==> !t.outputs[i].DragEnd?)
  {
  }

  /** Monitor over emitted events: `unmatched` counts `dragStart`s not yet
      answered by a `dragEnd`, `lastDragging` is the latest `dragging`.
      None marks a `dragEnd` with nothing to answer, or a `dragging` outside
      a drag or equal to the previous one. */
  datatype Watch = Watch(unmatched: nat, lastDragging: Option<Coordinates>)

  function WatchStep(w: Watch, o: Output): Option<Watch> {
    match o
    case DragStart(_) => Some(w.(unmatched := w.unmatched + 1))
    case DragEnd(_) => if w.unmatched == 0 then None else Some(w.(unmatched := w.unmatched - 1))
    case Dragging(c) =>
      if w.unmatched == 0 || w.lastDragging == Some(c) then None else Some(w.(lastDragging := Some(c)))
    case _ => Some(w)
  }

  /** What the monitor must hold in a given state: a running session has an
      unanswered `dragStart`, and the `dragging` memory is the monitor's. */
  predicate Agrees(w: Watch, st: State) {
    && w.lastDragging == st.previous
    && (st.phase.Active? ==> w.unmatched >= 1)
  }

  lemma EndIsWatched(cfg: Config, w: Watch, s: Session)
    requires w.unmatched >= 1
    ensures Observe(WatchStep, w, EndOutputs(cfg, s)) ==
      Some(if s.last.Some? then w.(unmatched := w.unmatched - 1) else w)
  {
    if s.last.Some? {
      var rest := if cfg.ghostDragEnabled then [ElementReset] else [];
      ObserveAppend(WatchStep, w, [DragEnd(s.last.value), DragStreamCompleted], rest);
      ObserveAppend(WatchStep, w, [DragEnd(s.last.value)], [DragStreamCompleted]);
    }
  }

  lemma DraggingIsWatched(cfg: Config, w: Watch, c: Coordinates, p: Pointer)
    requires w.unmatched >= 1
    ensures var r := DraggingChain(cfg, w.lastDragging, c, p);
      Observe(WatchStep, w, r.1) == Some(w.(lastDragging := r.0))
  {
    if cfg.validateDrag(c) && w.lastDragging != Some(c) {
      var rest := if cfg.ghostDragEnabled then [ElementMoved(c.x, c.y)] else [];
      ObserveAppend(WatchStep, w, [Dragging(c)] + rest, [DragSample(p)]);
      ObserveAppend(WatchStep, w, [Dragging(c)], rest);
    }
  }

  lemma StepIsWatched(cfg: Config, w: Watch, st: State, input: Input)
    requires Agrees(w, st)
    ensures var t := Next(cfg, st, input);
      var w' := Observe(WatchStep, w, t.outputs);
      w'.Some? && Agrees(w'.value, t.state)
  {
    match st.phase
    case Destroyed =>
    case Idle =>
      if input.PointerDown? && CanDrag(cfg.dragAxis) {
        ObserveAppend(WatchStep, w, [DragStart(Coordinates(0, 0))], [DragStreamOpened]);
      }
    case Active(s) =>
      match input
      case PointerMove(p) =>
        DraggingIsWatched(cfg, w, MoveSample(cfg, s.down, p), p);
      case PointerUp => EndIsWatched(cfg, w, s);
      case Destroy => EndIsWatched(cfg, w, s);
      case PointerDown(p) =>
        if CanDrag(cfg.dragAxis) {
          var c := MoveSample(cfg, s.down, p);
          var r := DraggingChain(cfg, st.previous, c, p);
          var head := [DragStart(Coordinates(0, 0)), DragStreamOpened];
          var w1 := w.(unmatched := w.unmatched + 1);
          ObserveAppend(WatchStep, w, [DragStart(Coordinates(0, 0))], [DragStreamOpened]);
          assert Observe(WatchStep, w, head) == Some(w1);
          ObserveAppend(WatchStep, w, head, r.1);
          DraggingIsWatched(cfg, w1, c, p);
          var w2 := w1.(lastDragging := r.0);
          ObserveAppend(WatchStep, w, head + r.1, EndOutputs(cfg, EndChain(cfg, s, c)));
          EndIsWatched(cfg, w2, EndChain(cfg, s, c));
        } else {
          EndIsWatched(cfg, w, s);
        }
  }

  /** Over any trace from the initial state there are never more `dragEnd`s
      than `dragStart`s, so each drag is reported as ended at most once, and
      `dragging` never repeats the coordinates of the previous `dragging`. */
  lemma {:induction false} TraceIsWatched(cfg: Config, w: Watch, st: State, inputs: seq<Input>)
    requires Agrees(w, st)
    ensures var r := Run(cfg, st, inputs);
      var w' := Observe(WatchStep, w, r.outputs);
      w'.Some? && Agrees(w'.value, r.state)
    decreases |inputs|
  {
    if inputs != [] {
      var t := Next(cfg, st, inputs[0]);
      StepIsWatched(cfg, w, st, inputs[0]);
      var w1 := Observe(WatchStep, w, t.outputs).value;
      TraceIsWatched(cfg, w1, t.state, inputs[1..]);
      ObserveAppend(WatchStep, w, t.outputs, Run(cfg, t.state, inputs[1..]).outputs);
    }
  }

  lemma TraceFromInitIsWatched(cfg: Config, inputs: seq<Input>)
    ensures Observe(WatchStep, Watch(0, None), Run(cfg, Init, inputs).outputs).Some?
  {
    TraceIsWatched(cfg, Watch(0, None), Init, inputs);
  }

  /** A plain click (press and release without a move) reports a whole drag
      at {0, 0}: the injected zero sample is the session's last sample. */
  lemma PlainClickReportsDrag()
    ensures var cfg := Config(DragAxis(true, true), SnapGrid(0, 0), true, c => true);
      Run(cfg, Init, [PointerDown(Pointer(5, 10)), PointerUp]).outputs ==
        [DragStart(Coordinates(0, 0)), DragStreamOpened,
         DragEnd(Coordinates(0, 0)), DragStreamCompleted, ElementReset]
  {
    var cfg := Config(DragAxis(true, true), SnapGrid(0, 0), true, c => true);
    var inputs := [PointerDown(Pointer(5, 10)), PointerUp];
    InjectedSampleIsZero(cfg, Pointer(5, 10));
    var t1 := Next(cfg, Init, inputs[0]);
    assert t1.state.phase == Active(Session(Pointer(5, 10), Some(Coordinates(0, 0))));
    var t2 := Next(cfg, t1.state, inputs[1]);
    assert Run(cfg, t1.state, inputs[1..]).outputs == t2.outputs;
  }

  /** Floor snapping on a horizontal grid of 10: deltas 2 and 9 snap to 0,
      10 and 11 snap to 10, and `dragEnd` reports the last sample. */
  lemma HorizontalGridTrace()
    ensures var cfg := Config(DragAxis(true, true), SnapGrid(10, 0), false, c => true);
      Run(cfg, Init, [PointerDown(Pointer(5, 10)), PointerMove(Pointer(7, 12)),
                      PointerMove(Pointer(14, 18)), PointerMove(Pointer(15, 20)),
                      PointerMove(Pointer(16, 22)), PointerUp]).outputs ==
        [DragStart(Coordinates(0, 0)), DragStreamOpened,
         Dragging(Coordinates(0, 2)), DragSample(Pointer(7, 12)),
         Dragging(Coordinates(0, 8)), DragSample(Pointer(14, 18)),
         Dragging(Coordinates(10, 10)), DragSample(Pointer(15, 20)),
         Dragging(Coordinates(10, 12)), DragSample(Pointer(16, 22)),
         DragEnd(Coordinates(10, 12)), DragStreamCompleted]
  {
    var cfg := Config(DragAxis(true, true), SnapGrid(10, 0), false, c => true);
    var down := Pointer(5, 10);
    var inputs := [PointerDown(down), PointerMove(Pointer(7, 12)),
                   PointerMove(Pointer(14, 18)), PointerMove(Pointer(15, 20)),
                   PointerMove(Pointer(16, 22)), PointerUp];
    InjectedSampleIsZero(cfg, down);
    FloorToGridUnique(2, 10, 0);
    FloorToGridUnique(9, 10, 0);
    FloorToGridUnique(10, 10, 1);
    FloorToGridUnique(11, 10, 1);
    var s1 := State(Active(Session(down, Some(Coordinates(0, 0)))), None);
    var s2 := State(Active(Session(down, Some(Coordinates(0, 2)))), Some(Coordinates(0, 2)));
    var s3 := State(Active(Session(down, Some(Coordinates(0, 8)))), Some(Coordinates(0, 8)));
    var s4 := State(Active(Session(down, Some(Coordinates(10, 10)))), Some(Coordinates(10, 10)));
    var s5 := State(Active(Session(down, Some(Coordinates(10, 12)))), Some(Coordinates(10, 12)));
    var s6 := State(Idle, Some(Coordinates(10, 12)));
    var o1 := [DragStart(Coordinates(0, 0)), DragStreamOpened];
    var o2 := [Dragging(Coordinates(0, 2)), DragSample(Pointer(7, 12))];
    var o3 := [Dragging(Coordinates(0, 8)), DragSample(Pointer(14, 18))];
    var o4 := [Dragging(Coordinates(10, 10)), DragSample(Pointer(15, 20))];
    var o5 := [Dragging(Coordinates(10, 12)), DragSample(Pointer(16, 22))];
    var o6 := [DragEnd(Coordinates(10, 12)), DragStreamCompleted];
    assert Next(cfg, Init, inputs[0]) == Transition(s1, o1);
    assert Next(cfg, s1, inputs[1]) == Transition(s2, o2);
    assert Next(cfg, s2, inputs[2]) == Transition(s3, o3);
    assert Next(cfg, s3, inputs[3]) == Transition(s4, o4);
    assert Next(cfg, s4, inputs[4]) == Transition(s5, o5);
    assert Next(cfg, s5, inputs[5]) == Transition(s6, o6);
    assert Run(cfg, s6, inputs[6..]) == Transition(s6, []);
    assert Run(cfg, s5, inputs[5..]) == Transition(s6, o6);
    assert Run(cfg, s4, inputs[4..]) == Transition(s6, o5 + o6);
    assert Run(cfg, s3, inputs[3..]) == Transition(s6, o4 + o5 + o6);
    assert Run(cfg, s2, inputs[2..]) == Transition(s6, o3 + o4 + o5 + o6);
    assert Run(cfg, s1, inputs[1..]) == Transition(s6, o2 + o3 + o4 + o5 + o6);
  }

  /** A move that snaps to the same coordinates emits no second `dragging`. */
  lemma RepeatedSampleNotReported()
    ensures var cfg := Config(DragAxis(true, true), SnapGrid(10, 10), true, c => true);
      var r := Run(cfg, Init, [PointerDown(Pointer(10, 5)), PointerMove(Pointer(12, 15)),
                               PointerMove(Pointer(18, 18))]);
      r.outputs == [DragStart(Coordinates(0, 0)), DragStreamOpened,
                    Dragging(Coordinates(0, 10)), ElementMoved(0, 10), DragSample(Pointer(12, 15))]
  {
    var cfg := Config(DragAxis(true, true), SnapGrid(10, 10), true, c => true);
    var inputs := [PointerDown(Pointer(10, 5)), PointerMove(Pointer(12, 15)),
                   PointerMove(Pointer(18, 18))];
    InjectedSampleIsZero(cfg, Pointer(10, 5));
    FloorToGridUnique(2, 10, 0);
    FloorToGridUnique(10, 10, 1);
    FloorToGridUnique(8, 10, 0);
    FloorToGridUnique(13, 10, 1);
    var t1 := Next(cfg, Init, inputs[0]);
    var t2 := Next(cfg, t1.state, inputs[1]);
    var t3 := Next(cfg, t2.state, inputs[2]);
    assert t3.outputs == [];
    assert Run(cfg, t2.state, inputs[2..]).outputs == [];
    assert Run(cfg, t1.state, inputs[1..]).outputs == t2.outputs;
  }

  /** A second press while dragging: the new drag starts first, the press
      then reaches the running session as a sample relative to its own
      origin, and that session ends with that sample. */
  lemma RepressEndsPreviousDrag(cfg: Config)
    requires cfg.dragAxis == DragAxis(true, true) && cfg.dragSnapGrid == SnapGrid(0, 0)
    requires !cfg.ghostDragEnabled && forall c :: cfg.validateDrag(c)
    ensures var r := Run(cfg, Init, [PointerDown(Pointer(0, 0)), PointerMove(Pointer(5, 0)),
                                     PointerDown(Pointer(8, 0))]);
      && r.outputs == [DragStart(Coordinates(0, 0)), DragStreamOpened,
                       Dragging(Coordinates(5, 0)), DragSample(Pointer(5, 0)),
                       DragStart(Coordinates(0, 0)), DragStreamOpened,
                       Dragging(Coordinates(8, 0)), DragSample(Pointer(8, 0)),
                       DragEnd(Coordinates(8, 0)), DragStreamCompleted]
      && r.state.phase == Active(Session(Pointer(8, 0), Some(Coordinates(0, 0))))
  {
    var inputs := [PointerDown(Pointer(0, 0)), PointerMove(Pointer(5, 0)),
                   PointerDown(Pointer(8, 0))];
    var s1 := State(Active(Session(Pointer(0, 0), Some(Coordinates(0, 0)))), None);
    var s2 := State(Active(Session(Pointer(0, 0), Some(Coordinates(5, 0)))), Some(Coordinates(5, 0)));
    var s3 := State(Active(Session(Pointer(8, 0), Some(Coordinates(0, 0)))), Some(Coordinates(8, 0)));
    var o1 := [DragStart(Coordinates(0, 0)), DragStreamOpened];
    var o2 := [Dragging(Coordinates(5, 0)), DragSample(Pointer(5, 0))];
    var o3 := [DragStart(Coordinates(0, 0)), DragStreamOpened,
               Dragging(Coordinates(8, 0)), DragSample(Pointer(8, 0)),
               DragEnd(Coordinates(8, 0)), DragStreamCompleted];
    assert Next(cfg, Init, inputs[0]) == Transition(s1, o1);
    assert Next(cfg, s1, inputs[1]) == Transition(s2, o2);
    var t3 := Next(cfg, s2, inputs[2]);
    assert t3 == Press(cfg, s2, Pointer(8, 0));
    assert t3.state == s3;
    assert t3.outputs == o3;
    assert Run(cfg, s3, inputs[3..]) == Transition(s3, []);
    assert Run(cfg, s2, inputs[2..]) == Transition(s3, o3);
    assert Run(cfg, s1, inputs[1..]) == Transition(s3, o2 + o3);
  }
}
