# angular-draggable-droppable, modelled in Dafny

This project models the logic behind the Angular drag-and-drop directives of
angular-draggable-droppable, and proves properties of that model.

- **Draggable directive.** Turns pointer presses, moves, releases and scrolls
  into `dragPointerDown`, `dragStart`, `dragging` and `dragEnd` events.
  - Each sample is snapped to a grid, locked to the enabled axes,
    compensated for scrolling and checked by `validateDrag`.
  - It keeps a table of native event listeners in step with `dragAxis`.
- **Droppable directive.** Watches each drag stream and decides, sample by
  sample, whether the pointer is over its element. It emits `dragEnter`,
  `dragOver`, `dragLeave` and `drop`, and adds and removes CSS classes.

The repository holds three generations of the draggable directive, and each
is its own module:

- **Current version** (`projects/draggable-droppable`): rounds to the
  nearest grid line, compensates for scrolling, and starts a drag on the
  first sample that passes validation.
- **First release** (`src/`): floors to the grid and starts a drag at the
  press.
- **CDK-based version** (`projects/angular-draggable-droppable`): keeps only
  the grid snapping, as a `constrainPosition` hook for the CDK drag.

There are two droppable directives, the current one and the first release.
The model also covers:

- the class-list helpers,
- the scroll container directive,
- the first release's scroll-parent search.

Modules:

| file | module | models |
|---|---|---|
| types.dfy | DragTypes | shared value types: pointers, coordinates, axes, grids, scroll positions, rectangles, the draggable configuration |
| snap.dfy | Snapping | `Math.round(v / g) * g` and `Math.floor(v / g) * g` as exact integer functions |
| draggable.dfy | DraggableDirective | the current move pipeline and session machine, as a step function over input traces |
| listeners.dfy | EventListeners | the native listener table and its handlers, as a class over a map |
| draggable_legacy.dfy | LegacyDraggableDirective | the first release's pipeline, with its injected zero sample |
| draggable_cdk.dfy | CdkDraggableDirective | `constrainPosition` and the mousedown `start` capture |
| overlap.dfy | DropOverlap | the point-in-rectangle test and the enter/over/leave/drop machine both droppables run |
| droppable.dfy | Droppable | the current droppable: rectangle cache, scroll invalidation, classes, events |
| droppable_legacy.dfy | LegacyDroppable | the first release's droppable: one rectangle per drag |
| class_list.dfy | ClassList | `addClass` and `removeClass` over an element's class set |
| scroll_container.dfy | ScrollContainer | the scroll container's scroll lock, touch-move guard and `hasScrollbar` |
| scroll_parent.dfy | ScrollParent | the recursive nearest-scrollable-ancestor search |
| trace_monitor.dfy | TraceMonitor | a monitor over emitted event sequences, shared by both draggable models |

How the model represents each part:

- **RxJS pipelines.** Each draggable pipeline is a pure `Next` function from
  a state and one input to a new state and the events emitted, in emission
  order. `Run` folds `Next` over a trace.
- **Trace monitor.** The properties that span a whole trace are stated with
  `Watch`/`Observe`, a monitor over the output sequence, and proved as
  invariants of `Run`.
- **Mutable state.** Parts that the source updates in place are classes with
  `modifies` clauses:
  - the listener dictionary,
  - the CDK `start` variable,
  - an element's class list,
  - each droppable's per-drag variables,
  - the scroll container's flag.
- **Browser inputs.** Each browser measurement is a parameter or a field,
  never read by the model itself:
  - `getBoundingClientRect` results,
  - scroll positions,
  - computed `overflowY`,
  - scroll and client sizes.
- **`validateDrag`.** An application callback, so it is a function-valued
  field of the configuration. An unset `validateDrag` is the function that
  accepts everything.
- **Coordinates.** All coordinates are integers. A grid entry of 0 stands
  for an unset or falsy grid. Negative grids are truthy in JavaScript and
  are snapped like positive ones.

Where the code and the repository's tests disagree, or the behaviour is easy
to miss, the model follows the code:

- **First release, plain click.** A press then release with no move emits
  `dragStart` {0, 0} and also `dragEnd` {0, 0}. The injected zero sample is
  the session's last sample (`LegacyDraggableDirective.PlainClickReportsDrag`).
  The repository's own test at test/draggable.directive.spec.ts:544-554
  expects no drag there.
- **Current version, re-press.** A new press during a drag first emits the
  new `dragPointerDown` and only then the old session's `dragEnd`. The outer
  `mergeMap` of `pointerDown$` subscribed before the session's `takeUntil`
  did.
- **Current version, `dragging` de-duplication.** `dragging` is compared
  with the previous passing sample of any session, not only the current
  one, because `pairwise` runs over the merged stream of all sessions.
- **First release, mouse enter.** The handler sets the cursor to the
  constant `MOVE_CURSOR`, and the current version sets it to `dragCursor`.
  The listener class models the current version.

## Model

All directive sources are paths under the repository root.

| member | source | states |
|---|---|---|
| Snapping.RoundQuotient | projects/draggable-droppable/src/lib/draggable.directive.ts:263-273 | `Math.round(v / g)` is the integer k with k ≤ v / g + 1/2 < k + 1, multiplied through by 2g, for either sign of g |
| Snapping.RoundToGrid | projects/draggable-droppable/src/lib/draggable.directive.ts:263-273 | `Math.round(v / g) * g` is a multiple of `g` within half a grid of `v`: −g ≤ 2(v − r) < g for g > 0, with halves rounding up; the mirror window for g < 0 |
| Snapping.RoundToGridUnique | projects/draggable-droppable/src/lib/draggable.directive.ts:263-273 | any multiple of `g` in that window is the snapped value, so the window characterises rounding to nearest |
| Snapping.RoundToGridIdempotent | projects/angular-draggable-droppable/src/lib/draggable.directive.ts:232-240 | snapping a snapped value changes nothing |
| Snapping.SnapRound | projects/draggable-droppable/src/lib/draggable.directive.ts:262-276 | a falsy (0) grid leaves the value unchanged; a set grid rounds it |
| Snapping.SnapRoundIdempotent | projects/angular-draggable-droppable/src/lib/draggable.directive.ts:232-240 | the guarded snap is idempotent for every grid, set or not |
| Snapping.FloorQuotient | src/draggable.directive.ts:141-155 | `Math.floor(v / g)` is the integer k with k ≤ v / g < k + 1, multiplied through by g, for either sign of g |
| Snapping.FloorToGrid | src/draggable.directive.ts:141-155 | `Math.floor(v / g) * g` is a multiple of `g` with 0 ≤ v − r < g for g > 0; the mirror window for g < 0 |
| Snapping.FloorToGridUnique | src/draggable.directive.ts:141-155 | any multiple of `g` in that window is the floored value |
| Snapping.FloorToGridIdempotent | src/draggable.directive.ts:141-155 | flooring a floored value changes nothing |
| Snapping.SnapFloor | src/draggable.directive.ts:141-155 | a falsy grid leaves the value unchanged; a set grid floors it |
| Snapping.FloorAndRoundDiffer | src/draggable.directive.ts:141-155 | with grid 10, delta 9 floors to 0 and delta 10 stays 10, while rounding takes 9 to 10, 4 to 0, 5 to 10, −5 to 0 and −6 to −10 |
| DraggableDirective.MoveSample | projects/draggable-droppable/src/lib/draggable.directive.ts:251-296 | client and scroll fields are copied; a locked axis gives transform 0 after snapping; an unset grid gives the raw delta from the press; a set grid gives the rounded delta; x = transformX + (scrollLeft − start left), y likewise |
| DraggableDirective.OnSample | projects/draggable-droppable/src/lib/draggable.directive.ts:297-311 | a sample failing `validateDrag` changes nothing but the remembered move and emits nothing; a passing one becomes the session's last sample (`takeLast(1)`) and the `pairwise` memory |
| DraggableDirective.DragStartOnFirstPassingSample | projects/draggable-droppable/src/lib/draggable.directive.ts:304-316 | `dragStart` is emitted exactly on the first sample of a session that passes validation, a move or a scroll after a move |
| DraggableDirective.DraggingIffChanged | projects/draggable-droppable/src/lib/draggable.directive.ts:288-446 | a move, or a scroll after a move, emits `dragging` at c exactly when its sample passes, its coordinates are c, and they differ from the previous passing sample; a scroll before any move emits nothing |
| DraggableDirective.Next | projects/draggable-droppable/src/lib/draggable.directive.ts:200-414 | one input: the directive is destroyed exactly when it was already or the input is the destruction, and then ignores everything; `dragPointerDown` {0, 0} is emitted exactly for a press the directive accepts (`canDrag`) |
| DraggableDirective.Run | projects/draggable-droppable/src/lib/draggable.directive.ts:200-414 | over a trace, the directive ends destroyed exactly when it started so or the trace contains a destruction |
| DraggableDirective.EndSession | projects/draggable-droppable/src/lib/draggable.directive.ts:390-414 | a session without a passing sample ends silently; a started one emits `dragEnd` with its last sample and the cancel flag, then completes the drag stream |
| DraggableDirective.DragEndOfStartedSession | projects/draggable-droppable/src/lib/draggable.directive.ts:390-407 | every `dragEnd` comes from a started session and carries its last passing sample; `dragCancelled` holds exactly when the cancel handle ended the session |
| DraggableDirective.SessionEnd | projects/draggable-droppable/src/lib/draggable.directive.ts:240-245 | a release, a new press, a cancel of a started drag and destruction end the session; an accepted press opens a fresh one; moves and scrolls keep it |
| DraggableDirective.DestroyedIsFinal | projects/draggable-droppable/src/lib/draggable.directive.ts:473-479 | after destruction every input is ignored |
| DraggableDirective.SampleIsWatched | projects/draggable-droppable/src/lib/draggable.directive.ts:297-316 | a sample keeps the invariant and emits only what the monitor accepts |
| DraggableDirective.EndIsWatched | projects/draggable-droppable/src/lib/draggable.directive.ts:390-414 | the end of a session keeps the invariant and emits only what the monitor accepts |
| DraggableDirective.StepIsWatched | projects/draggable-droppable/src/lib/draggable.directive.ts:240-311 | every input keeps the invariant and emits only what the monitor accepts |
| DraggableDirective.TraceIsWatched | projects/draggable-droppable/src/lib/draggable.directive.ts:304-441 | on any trace, `dragStart` and `dragEnd` alternate starting with `dragStart`; `dragging` occurs only inside a drag and never twice in a row at the same point; each `dragEnd` is at the latest `dragging` |
| DraggableDirective.TraceFromInitIsWatched | projects/draggable-droppable/src/lib/draggable.directive.ts:304-441 | the same, over every trace from the initial state |
| DraggableDirective.ObserveNoDragEvents | projects/draggable-droppable/src/lib/draggable.directive.ts:372-387 | outputs other than `dragStart`, `dragging` and `dragEnd` leave the monitor unchanged |
| DraggableDirective.NoPassingSampleNoDrag | projects/draggable-droppable/src/lib/draggable.directive.ts:297-311 | with a `validateDrag` that rejects every position, no trace starts a drag and the only events are the `dragPointerDown` {0, 0} of each press |
| DraggableDirective.FailingMovesThenRelease | projects/draggable-droppable/src/lib/draggable.directive.ts:297-414 | in a session not yet started, moves whose own samples all fail `validateDrag` and then a release emit nothing and leave the directive idle with its memory unchanged |
| DraggableDirective.FailingSessionIsSilent | projects/draggable-droppable/src/lib/draggable.directive.ts:236-414 | a press, moves whose own samples all fail `validateDrag`, and a release emit only `dragPointerDown` {0, 0}: neither `dragStart` nor `dragEnd` |
| DraggableDirective.PressMoveRelease | projects/draggable-droppable/src/lib/draggable.directive.ts:236-414 | press (5, 10), moves to (7, 10) and (7, 8), release: the full event sequence, with `dragging` at (2, 0) then (2, −2) and an uncancelled `dragEnd` at (2, −2) |
| DraggableDirective.CancelForcesEnd | projects/draggable-droppable/src/lib/draggable.directive.ts:240-245 | calling the cancel handle ends a started drag at once with `dragCancelled` set, and a later move emits nothing |
| DragTypes.CanDrag | projects/draggable-droppable/src/lib/draggable.directive.ts:623-625 | dragging is possible unless both axes are locked |
| EventListeners.DraggableListeners.constructor | projects/draggable-droppable/src/lib/draggable.directive.ts:106-176 | a new directive holds the given axes and `dragCursor`, an empty listener table (the `= {}` initialiser), no live registrations, no pointer signals and an unset cursor |
| EventListeners.DraggableListeners.Listen | projects/draggable-droppable/src/lib/draggable.directive.ts:488-494 | a listen stores a fresh handle for its type and attaches exactly that listener |
| EventListeners.DraggableListeners.Unlisten | projects/draggable-droppable/src/lib/draggable.directive.ts:571-574 | an unlisten detaches the type's listener and deletes its entry |
| EventListeners.DraggableListeners.InstallStaticListeners | projects/draggable-droppable/src/lib/draggable.directive.ts:486-543 | from an empty table, the seven static listeners are installed in source order, each with the next fresh handle |
| EventListeners.DraggableListeners.ListenAll | projects/draggable-droppable/src/lib/draggable.directive.ts:486-543 | listening to distinct new types adds exactly those types, keeps earlier entries, and hands out consecutive handles |
| EventListeners.DraggableListeners.CheckEventListeners | projects/draggable-droppable/src/lib/draggable.directive.ts:481-547 | the seven listeners are added only when `canDrag` holds and the table is empty; all are removed only when `canDrag` fails and the table is not empty; otherwise nothing changes |
| EventListeners.DraggableListeners.UnsubscribeEventListeners | projects/draggable-droppable/src/lib/draggable.directive.ts:631-636 | every listener is called and deleted, and nothing stays attached |
| EventListeners.DraggableListeners.SetDragAxis | projects/draggable-droppable/src/lib/draggable.directive.ts:467-471 | a `dragAxis` change re-runs the check: listeners appear when dragging becomes possible and vanish when it becomes impossible |
| EventListeners.DraggableListeners.OnPress | projects/draggable-droppable/src/lib/draggable.directive.ts:549-601 | a press adds the document move listener only if none is attached, then pushes the press |
| EventListeners.DraggableListeners.OnRelease | projects/draggable-droppable/src/lib/draggable.directive.ts:570-613 | a release removes the move listener if there is one, then pushes the release |
| EventListeners.DraggableListeners.Dispatch | projects/draggable-droppable/src/lib/draggable.directive.ts:488-621 | a native event reaches its handler only while its listener is attached; each handler's effect on the table, the pointer subjects and the cursor (a press adds exactly the move listener when it is absent); only `mouseenter` and `mouseleave` touch the cursor |
| EventListeners.DraggableListeners.NgOnDestroy | projects/draggable-droppable/src/lib/draggable.directive.ts:473-474 | destruction removes every listener and leaves the cursor, `dragCursor`, the axes and the emitted pointer signals alone |
| EventListeners.AtMostOneListenerPerType | projects/draggable-droppable/src/lib/draggable.directive.ts:549-613 | no event type ever has two live listeners, so repeated presses never register a second move listener |
| EventListeners.CheckIsIdempotent | projects/draggable-droppable/src/lib/draggable.directive.ts:481-547 | calling `checkEventListeners` twice: the second call leaves the table the first left, which is non-empty exactly when `canDrag` holds |
| LegacyDraggableDirective.MoveSample | src/draggable.directive.ts:130-166 | a locked axis gives 0 after snapping; an unset grid gives the raw delta; a set grid gives the floored delta |
| LegacyDraggableDirective.InjectedSampleIsZero | src/draggable.directive.ts:187 | the press pushed back as a move is the sample (0, 0) for every grid and axis setting |
| LegacyDraggableDirective.DraggingChain | src/draggable.directive.ts:193-221 | a failing sample changes nothing; a passing one becomes the memory; `dragging` is emitted exactly when it passes and differs from the memory |
| LegacyDraggableDirective.EndChain | src/draggable.directive.ts:167-172 | a sample becomes the session's last sample exactly when it passes `validateDrag` |
| LegacyDraggableDirective.Press | src/draggable.directive.ts:114-190 | an accepted press opens a session at the press whose last sample is the injected (0, 0), if it passes, and first emits `dragStart` {0, 0} and the drag stream; a refused press emits no `dragStart` and leaves the directive idle |
| LegacyDraggableDirective.Next | src/draggable.directive.ts:114-235 | one input: the directive is destroyed exactly when it was already or the input is the destruction, and then ignores everything |
| LegacyDraggableDirective.Run | src/draggable.directive.ts:114-235 | over a trace, the directive ends destroyed exactly when it started so or the trace contains a destruction (the same fold as DraggableDirective.Run, over this directive's own states and inputs) |
| LegacyDraggableDirective.EndOutputs | src/draggable.directive.ts:172-185 | a session with no passing sample ends silently; otherwise its first end event is `dragEnd` at its last sample |
| LegacyDraggableDirective.PressStartsDrag | src/draggable.directive.ts:114-127 | a press emits `dragStart` {0, 0} and opens the drag stream exactly when `canDrag` holds, and then a session is running |
| LegacyDraggableDirective.ReleaseEndsSession | src/draggable.directive.ts:170-190 | a release, a destruction or a new press ends the session; after a release or destruction the first event is the `dragEnd` at its last passing sample, or nothing is emitted if there is none; a press emits that `dragEnd` too, counting the press itself as a sample of the old session when the press is accepted, and no `dragEnd` when no sample passed |
| TraceMonitor.ObserveAppend | src/draggable.directive.ts:172-221 | watching a concatenation of outputs is watching the first part, then the second from where the first left the monitor, for any monitor step |
| LegacyDraggableDirective.EndIsWatched | src/draggable.directive.ts:172-185 | a session end answers at most one open `dragStart` |
| LegacyDraggableDirective.DraggingIsWatched | src/draggable.directive.ts:193-221 | the `dragging` chain emits only what the monitor accepts, and its memory is the monitor's |
| LegacyDraggableDirective.StepIsWatched | src/draggable.directive.ts:114-221 | every input keeps the monitor's agreement with the state |
| LegacyDraggableDirective.TraceIsWatched | src/draggable.directive.ts:114-221 | on any trace there are never more `dragEnd`s than `dragStart`s, and `dragging` never repeats the previous `dragging`'s coordinates |
| LegacyDraggableDirective.TraceFromInitIsWatched | src/draggable.directive.ts:114-221 | the same, over every trace from the initial state |
| LegacyDraggableDirective.PlainClickReportsDrag | src/draggable.directive.ts:119-187 | press and release with no move emit `dragStart` {0, 0}, the drag stream, `dragEnd` {0, 0} and the transform reset |
| LegacyDraggableDirective.HorizontalGridTrace | src/draggable.directive.ts:141-155 | with an x grid of 10, x deltas 2 and 9 floor to 0 and 10 and 11 floor to 10; y is unsnapped; `dragEnd` reports the last sample |
| LegacyDraggableDirective.RepeatedSampleNotReported | src/draggable.directive.ts:193-203 | a move that snaps to the previous coordinates emits no `dragging` |
| LegacyDraggableDirective.RepressEndsPreviousDrag | src/draggable.directive.ts:114-190 | a press during a drag starts the new drag first; the press then reaches the old session as a sample relative to the old origin, and the old session ends at it |
| CdkDraggableDirective.Constrain | projects/angular-draggable-droppable/src/lib/draggable.directive.ts:227-246 | per axis, no grid is the identity; with a grid, the offset from `start` is the rounded offset |
| CdkDraggableDirective.CdkDraggable.constructor | projects/angular-draggable-droppable/src/lib/draggable.directive.ts:213-216 | after `ngOnInit` the `start` variable is unset, the grid is the `dragSnapGrid` input, `destroy$` has not fired and nothing was emitted |
| CdkDraggableDirective.CdkDraggable.OnMouseDown | projects/angular-draggable-droppable/src/lib/draggable.directive.ts:216-225 | until destruction, a mousedown emits `dragPointerDown` {0, 0} and replaces `start` with the event's client position |
| CdkDraggableDirective.CdkDraggable.NgOnDestroy | projects/angular-draggable-droppable/src/lib/draggable.directive.ts:217-218 | destruction ends the mousedown subscription |
| CdkDraggableDirective.CdkDraggable.ConstrainPosition | projects/angular-draggable-droppable/src/lib/draggable.directive.ts:227-246 | before any mousedown there is no result (the code would throw); afterwards the hook snaps against `start` |
| CdkDraggableDirective.NoGridIsIdentity | projects/angular-draggable-droppable/src/lib/draggable.directive.ts:227-246 | with no snap grid the point is returned unchanged |
| CdkDraggableDirective.SnappedOffsetIsNearestMultiple | projects/angular-draggable-droppable/src/lib/draggable.directive.ts:232-242 | with x grid g > 0, output.x − start.x is a multiple of g within half a grid of point.x − start.x |
| CdkDraggableDirective.AxesAreIndependent | projects/angular-draggable-droppable/src/lib/draggable.directive.ts:232-243 | the y grid never changes the x output, nor the x grid the y output |
| CdkDraggableDirective.ConstrainIsIdempotent | projects/angular-draggable-droppable/src/lib/draggable.directive.ts:232-245 | feeding the output back with the same start returns it unchanged |
| CdkDraggableDirective.MouseDownReplacesStart | projects/angular-draggable-droppable/src/lib/draggable.directive.ts:216-225 | after two mousedowns positions are snapped against the second |
| DropOverlap.IsCoordinateWithinRectangle | projects/angular-draggable-droppable/src/lib/droppable.directive.ts:19-30 | only a rectangle not inverted on either axis contains a point, and it contains its top-left corner exactly then |
| DropOverlap.EdgesAreInclusive | projects/angular-draggable-droppable/src/lib/droppable.directive.ts:19-30 | all four edges belong to the rectangle, and the pixels just outside do not |
| DropOverlap.Run | projects/angular-draggable-droppable/src/lib/droppable.directive.ts:137-176 | over a stream, one group of events per sample; the memory stays consistent and holds the last sample's overlap, or none for an empty stream |
| DropOverlap.NotifyAddsNoDrop | projects/angular-draggable-droppable/src/lib/droppable.directive.ts:137-176 | a sample's events never include a drop, so appending them keeps the stream's events so far free of drops and keeps the earlier events |
| DropOverlap.CompletionDrops | projects/angular-draggable-droppable/src/lib/droppable.directive.ts:178-191 | if a stream's events hold no drop before completion, they hold one afterwards exactly when completion drops |
| DropOverlap.Step | projects/angular-draggable-droppable/src/lib/droppable.directive.ts:137-176 | one sample: enter exactly on a change to overlapping, including a first overlapping sample; over on every overlapping sample; leave exactly on a change from overlapping; never a drop; `dragOverActive` matches the last overlap |
| DropOverlap.Notify | projects/angular-draggable-droppable/src/lib/droppable.directive.ts:145-175 | each event of a sample carries that sample's drop data |
| DropOverlap.RunFrom | src/droppable.directive.ts:76-109 | after a non-empty stream the memory holds the last overlap, and consistency is kept |
| DropOverlap.RunFromSnoc | src/droppable.directive.ts:76-109 | one more sample steps the memory once |
| DropOverlap.RunFromStart | src/droppable.directive.ts:76-109 | fed from the start, the memory is the whole run's |
| DropOverlap.RunIsExpected | projects/angular-draggable-droppable/src/lib/droppable.directive.ts:137-176 | over a whole stream, each sample's events are exactly what its own overlap and its predecessor's call for |
| DropOverlap.DropIffLastSampleOverlaps | projects/angular-draggable-droppable/src/lib/droppable.directive.ts:178-191 | completion drops exactly when the last sample overlapped, so entering and leaving before release gives no drop |
| DropOverlap.EntersAndLeavesAlternate | projects/angular-draggable-droppable/src/lib/droppable.directive.ts:139-176 | leaves never outnumber enters, and there is one more enter exactly while the pointer is over the element |
| DropOverlap.CountAppend | projects/angular-draggable-droppable/src/lib/droppable.directive.ts:139-176 | counting events over one more sample adds that sample's events |
| DropOverlap.BoundaryExample | projects/angular-draggable-droppable/src/lib/droppable.directive.ts:19-30 | a sample on the top edge enters and is over; one a pixel above it leaves |
| Droppable.SampleOverlaps | projects/angular-draggable-droppable/src/lib/droppable.directive.ts:119-135 | with a cached scroll-container rectangle, overlap means within the element and within the container; otherwise within the element |
| Droppable.DroppableDirective.constructor | projects/angular-draggable-droppable/src/lib/droppable.directive.ts:86-88 | after `ngOnInit` the directive is subscribed to `currentDrag`, no stream is under way, no scroll listener is registered, the cache is invalid, the memory is the machine's start and no event was emitted |
| Droppable.DroppableDirective.OnDragStream | projects/angular-draggable-droppable/src/lib/droppable.directive.ts:86-106 | while subscribed, a drag stream adds `dragActiveClass`, starts a fresh cache that needs reading, registers the scroll listener and resets the overlap memory; after destruction nothing happens |
| Droppable.DroppableDirective.OnScroll | projects/angular-draggable-droppable/src/lib/droppable.directive.ts:98-106 | a scroll during a drag invalidates the cache; the rectangles, the memory, the events, the drop data and the subscription stay as they were |
| Droppable.DroppableDirective.OnSample | projects/angular-draggable-droppable/src/lib/droppable.directive.ts:108-176 | the rectangles are re-read only when the cache is invalid, and then it is valid; the sample steps the overlap machine; its events carry its drop data; enter adds and leave removes `dragOverClass` |
| Droppable.DroppableDirective.OnComplete | projects/angular-draggable-droppable/src/lib/droppable.directive.ts:178-191 | completion deregisters the scroll listener and removes `dragActiveClass` whatever the overlap; while over, it also removes `dragOverClass` and drops with the last data |
| Droppable.DroppableDirective.NgOnDestroy | projects/angular-draggable-droppable/src/lib/droppable.directive.ts:194-198 | no further drag stream is observed |
| Droppable.CachedOverlaps | projects/angular-draggable-droppable/src/lib/droppable.directive.ts:108-136 | each sample's overlap is the test against the element and container rectangles cached at the first sample |
| Droppable.CachedOverlapsSnoc | projects/angular-draggable-droppable/src/lib/droppable.directive.ts:108-136 | the overlaps of one more sample extend the previous overlaps |
| Droppable.FeedSamples | projects/angular-draggable-droppable/src/lib/droppable.directive.ts:108-176 | feeding a non-empty stream without a scroll: the first sample fills the cache, the memory is the machine's over the samples tested against the first rectangles, the earlier events are kept, and no drop is emitted |
| Droppable.ObserveDrag | projects/angular-draggable-droppable/src/lib/droppable.directive.ts:86-191 | over a whole drag without a scroll, the later rectangles do not matter: the memory is the machine's over the samples tested against the first sample's rectangles; the directive drops exactly when the last sample lies within them, the drop carries that sample's data, and no drop is emitted otherwise |
| LegacyDroppable.Droppable.constructor | src/droppable.directive.ts:53-61 | after `ngOnInit` the directive is subscribed to `currentDrag`, no stream is under way and no event was emitted |
| LegacyDroppable.Droppable.OnDragStream | src/droppable.directive.ts:60-64 | while subscribed, a drag stream fixes the rectangle read at that moment and resets the memory |
| LegacyDroppable.Droppable.OnSample | src/droppable.directive.ts:67-109 | a sample is tested against that fixed rectangle and steps the overlap machine; its events carry its data |
| LegacyDroppable.Droppable.OnComplete | src/droppable.directive.ts:111-121 | completion drops, with the last data, exactly when `dragOverActive` is set |
| LegacyDroppable.Droppable.NgOnDestroy | src/droppable.directive.ts:126-128 | no further drag stream is observed |
| LegacyDroppable.Overlaps | src/droppable.directive.ts:62-74 | each sample's overlap is the inclusive test against the one rectangle |
| LegacyDroppable.OverlapsSnoc | src/droppable.directive.ts:62-74 | the overlaps of one more sample extend the previous overlaps |
| LegacyDroppable.FeedSamples | src/droppable.directive.ts:67-109 | feeding a stream leaves the rectangle alone, the memory is that of the machine over the stream's overlaps, the earlier events are kept, and no drop is emitted |
| LegacyDroppable.ObserveDrag | src/droppable.directive.ts:60-121 | over a whole drag, the memory is the machine's over the stream; it drops exactly when the last sample lies within the rectangle read at the start, with that sample's data, and emits no drop otherwise |
| ClassList.Split | projects/angular-draggable-droppable/src/lib/util.ts:9-10 | `split(' ')` yields at least one token, no token contains a space, and joining them with spaces gives the string back |
| ClassList.SplitJoin | projects/angular-draggable-droppable/src/lib/util.ts:9-10 | splitting space-joined space-free tokens gives the tokens back |
| ClassList.JoinCons | projects/angular-draggable-droppable/src/lib/util.ts:9-10 | a first character joins onto the first token |
| ClassList.Added | projects/angular-draggable-droppable/src/lib/util.ts:3-15 | a non-empty string adds all its tokens; classes not among them are untouched; nothing is removed |
| ClassList.Removed | projects/angular-draggable-droppable/src/lib/util.ts:17-29 | a non-empty string leaves none of its tokens; classes not among them are untouched; nothing is added |
| ClassList.Element.AddClass | projects/angular-draggable-droppable/src/lib/util.ts:3-15 | the class set afterwards is `Added` of the one before; an empty (falsy) string changes nothing |
| ClassList.Element.RemoveClass | projects/angular-draggable-droppable/src/lib/util.ts:17-29 | the class set afterwards is `Removed` of the one before; an empty string changes nothing |
| ClassList.TokensHaveNoSpace | projects/angular-draggable-droppable/src/lib/util.ts:9-13 | every class a string names is free of spaces |
| ClassList.TwoClassString | projects/angular-draggable-droppable/src/lib/util.ts:9-13 | "a b" names exactly the classes "a" and "b" |
| ClassList.RemoveAfterAdd | projects/angular-draggable-droppable/src/lib/util.ts:3-29 | `removeClass(s)` after `addClass(s)` leaves none of the tokens of `s` and every other class as it was |
| ScrollContainer.DraggableScrollContainer.constructor | projects/angular-draggable-droppable/src/lib/draggable-scroll-container.directive.ts:26-36 | the inputs default to no long-press drag and {300, 30}, and scrolling is not cancelled |
| ScrollContainer.DraggableScrollContainer.DisableScroll | projects/angular-draggable-droppable/src/lib/draggable-scroll-container.directive.ts:64-67 | the flag is set and overflow is "hidden" |
| ScrollContainer.DraggableScrollContainer.EnableScroll | projects/angular-draggable-droppable/src/lib/draggable-scroll-container.directive.ts:72-75 | the flag is cleared and overflow is "auto" |
| ScrollContainer.DraggableScrollContainer.OnTouchMove | projects/angular-draggable-droppable/src/lib/draggable-scroll-container.directive.ts:50-56 | a touch move is prevented exactly when scrolling is cancelled and the event is cancelable |
| ScrollContainer.DraggableScrollContainer.HasScrollbar | projects/angular-draggable-droppable/src/lib/draggable-scroll-container.directive.ts:80-90 | there is a scrollbar exactly when the content is wider or taller than the container; nothing else in the directive reads it, so it has no partner property |
| ScrollContainer.ScrollLockCycle | projects/angular-draggable-droppable/src/lib/draggable-scroll-container.directive.ts:50-75 | while disabled, exactly the cancelable touch moves are prevented; after enabling, none is |
| ScrollParent.IsScrollParent | src/draggableHelper.provider.ts:11-14 | visible or hidden overflow never qualifies, nor content that fits; `auto` or `scroll` overflow with taller content always does |
| ScrollParent.GetScrollParent | src/draggableHelper.provider.ts:6-19 | the result is the nearest element of the walk whose overflowY is neither visible nor hidden and whose content is taller than its box, or the scrolling element when none is |
| ScrollParent.NearestIsUnique | src/draggableHelper.provider.ts:6-19 | a qualifying element with none qualifying below it is the result |
| ScrollParent.AncestorsAboveDoNotMatter | src/draggableHelper.provider.ts:14-18 | the ancestors above the result are never looked at |
| ScrollParent.NullIsScrollingElement | src/draggableHelper.provider.ts:7-9 | a null element gives the document's scrolling element |
| ScrollParent.SelfIffQualifies | src/draggableHelper.provider.ts:11-18 | an element is its own result exactly when it qualifies |

## Left out

- Ghost element cloning and styling, template embedding, and the global
  `user-select` style sheet are DOM manipulation. The model keeps only the
  events that mark them (`GhostElementCreated`, `GhostMoved`,
  `ElementMoved`, `ElementReset`).
- The draggable's `dragActiveClass` add and remove and the `MOVE_CURSOR`
  cursor of the first release's press are styling, so they are left out.
- `zone.run`, `runOutsideAngular` and `renderer.listen` are not modelled.
  Listener registration is a fresh handle in a map.
- The CDK `DragRef`, `createDrag`, its `started`/`moved`/`ended` streams and
  `dom-autoscroller` are foreign libraries. Only the CDK version's own
  snapping and `start` capture are modelled.
- Long-press touch timing and context-menu suppression have no shown
  implementation and are not modelled. The scroll container's
  `activeLongPressDrag` and `longPressConfig` appear only as initial values.
- Floating point: coordinates, scroll offsets, rectangle edges and sizes
  are integers.
- The draggable configuration (axes, grid, ghost flag, `validateDrag`) is
  fixed over a pipeline trace. Only the listener class follows changes to
  `dragAxis`.
- A cancel call made before the drag has started is not modelled, because
  the handle reaches the application only with `dragStart`.
- A cancel made synchronously inside the `dragStart` handler, before the
  rest of the start chain runs, is not modelled either.
- DraggableDirective.Next: the new session's scroll compensation starts at
  the scroll position given with the press. The first sample waits for a
  move (`combineLatest`). A scroll that arrives before any move is
  remembered but emits nothing.
- Droppable.ObserveDrag: scrolls during the drag are not part of this
  whole-drag contract. `OnScroll` and `OnSample` state the cache
  invalidation and re-read one step at a time.
- Droppables see one drag stream at a time. Overlapping drag streams,
  which need a second press before the first stream completes, are not
  modelled.
- Drop data is an opaque integer or undefined.
- The first release's droppable completes through `drag.flatMap(() =>
  overlaps)`. Its extra inner subscriptions only re-assign the same drop
  data, so the model drops on the stream's completion directly.
- ClassList.Element.AddClass: the DOM's `classList.add` throws on an empty
  token (for example from a double space) and on a token holding other
  whitespace (a tab or a newline, which `split(' ')` keeps). The model adds
  such a token as a class name and goes on with the rest, where the DOM
  would stop at the throw.
- ClassList.Element.RemoveClass: `classList.remove` throws on the same
  tokens. The model removes such a token (a no-op when it is absent) and
  goes on with the rest, where the DOM would stop at the throw.
- EventListeners.DraggableListeners.Dispatch: native event objects are
  reduced to their kind and the one pointer position the handler reads.
- ScrollParent.GetScrollParent: the document's scrolling element is a
  distinguished result. The model does not check whether it is itself
  scrollable, and does not handle a null `document.scrollingElement`.
