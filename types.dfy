/**
 * Value types shared by the draggable and droppable models: integer pixel
 * coordinates (client coordinates, scroll offsets and rectangle edges are
 * modelled as `int`), the axis and grid configuration, and an Option type.
 */
module DragTypes {

  datatype Option<T> = None | Some(value: T)

  /** `{ clientX, clientY }` of a mouse event or of a touch point. */
  datatype Pointer = Pointer(clientX: int, clientY: int)

  /** `{ x, y }` as emitted by `dragPointerDown`, `dragging` and `dragEnd`. */
  datatype Coordinates = Coordinates(x: int, y: int)

  /** `dragAxis`: the axes along which the element may move. */
  datatype DragAxis = DragAxis(x: bool, y: bool)

  /** `dragSnapGrid`: a grid size per axis, where 0 stands for a missing
      (or otherwise falsy) entry. */
  datatype SnapGrid = SnapGrid(x: int, y: int)

  /** `{ top, left }` scroll offsets of the scroll container or the window. */
  datatype ScrollPosition = ScrollPosition(top: int, left: int)

  /** A `ClientRect` as `getBoundingClientRect` returns it. */
  datatype Rect = Rect(left: int, top: int, right: int, bottom: int)

  /** The draggable directive inputs its move pipeline reads. An unset
      `validateDrag` is the predicate that accepts everything. */
  datatype Config = Config(
    dragAxis: DragAxis,
    dragSnapGrid: SnapGrid,
    ghostDragEnabled: bool,
    validateDrag: Coordinates -> bool)

  /** `canDrag()`: dragging is possible along at least one axis, that is,
      unless both axes are locked. */
  predicate CanDrag(dragAxis: DragAxis): (r: bool)
    ensures r <==> dragAxis != DragAxis(false, false)
  {
    dragAxis.x || dragAxis.y
  }
}
