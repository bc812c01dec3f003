/**
 * The CDK-based draggable directive
 * (projects/angular-draggable-droppable/src/lib/draggable.directive.ts),
 * of which only the grid snapping is its own: the directive records the
 * position of each mousedown in a local `start` variable, and the
 * `constrainPosition` hook it gives the CDK drag snaps every pointer position
 * to the grid relative to that start.
 */
module CdkDraggableDirective {
  import opened DragTypes
  import opened Snapping

  /** The body of `constrainPosition` once `start` is set: the offset from
      the start is rounded to the grid per axis and added back. */
  function Constrain(start: Coordinates, grid: SnapGrid, point: Coordinates): (r: Coordinates)
    ensures grid.x == 0 ==> r.x == point.x
    ensures grid.y == 0 ==> r.y == point.y
    ensures grid.x != 0 ==> r.x - start.x == RoundToGrid(point.x - start.x, grid.x)
    ensures grid.y != 0 ==> r.y - start.y == RoundToGrid(point.y - start.y, grid.y)
  {
    var x := SnapRound(point.x - start.x, grid.x);
    var y := SnapRound(point.y - start.y, grid.y);
    Coordinates(x + start.x, y + start.y)
  }

  /** The state `ngOnInit` sets up: the `start` variable, the grid input and
      the emitted `dragPointerDown` events. `destroyed` says whether
      `destroy$` has fired, which ends the mousedown subscription. */
  class CdkDraggable {
    var start: Option<Coordinates>
    var dragSnapGrid: SnapGrid
    var destroyed: bool
    var dragPointerDowns: seq<Coordinates>

    constructor (grid: SnapGrid)
      ensures start == None && dragSnapGrid == grid && !destroyed && dragPointerDowns == []
    {
      start := None;
      dragSnapGrid := grid;
      destroyed := false;
      dragPointerDowns := [];
    }

    /** The mousedown subscriber: `dragPointerDown` {0, 0}, then `start`
        becomes the event's client position. */
    method OnMouseDown(p: Pointer)
      modifies this
      ensures !old(destroyed) ==>
        && start == Some(Coordinates(p.clientX, p.clientY))
        && dragPointerDowns == old(dragPointerDowns) + [Coordinates(0, 0)]
      ensures old(destroyed) ==> start == old(start) && dragPointerDowns == old(dragPointerDowns)
      ensures dragSnapGrid == old(dragSnapGrid) && destroyed == old(destroyed)
    {
      if !destroyed {
        dragPointerDowns := dragPointerDowns + [Coordinates(0, 0)];
        start := Some(Coordinates(p.clientX, p.clientY));
      }
    }

    /** `ngOnDestroy`: `destroy$` fires. */
    method NgOnDestroy()
      modifies this`destroyed
      ensures destroyed
    {
      destroyed := true;
    }

    /** `constrainPosition`. Before any mousedown `start` is undefined and
        reading `start.x` throws: the result is then None. */
    function ConstrainPosition(point: Coordinates): (r: Option<Coordinates>)
      reads this
      ensures start.None? <==> r.None?
      ensures start.Some? ==> r == Some(Constrain(start.value, dragSnapGrid, point))
    {
      match start
      case None => None
      case Some(s) => Some(Constrain(s, dragSnapGrid, point))
    }
  }

  /** Without a grid the hook leaves every position as it is. */
  lemma NoGridIsIdentity(start: Coordinates, point: Coordinates)
    ensures Constrain(start, SnapGrid(0, 0), point) == point
  {
  }

  /** With a grid on an axis, the offset from the start on that axis is a
      multiple of the grid within half a grid of the pointer's offset. */
  lemma SnappedOffsetIsNearestMultiple(start: Coordinates, grid: SnapGrid, point: Coordinates)
    requires grid.x > 0
    ensures var d := Constrain(start, grid, point).x - start.x;
      IsMultiple(d, grid.x) && -grid.x <= 2 * ((point.x - start.x) - d) < grid.x
  {
  }

  /** The two axes are snapped independently: the y grid never changes the
      x result, nor the x grid the y result. */
  lemma AxesAreIndependent(start: Coordinates, point: Coordinates, gx: int, gy: int, gx': int, gy': int)
    ensures Constrain(start, SnapGrid(gx, gy), point).x == Constrain(start, SnapGrid(gx, gy'), point).x
    ensures Constrain(start, SnapGrid(gx, gy), point).y == Constrain(start, SnapGrid(gx', gy), point).y
  {
  }

  /** Snapping is idempotent: a position already snapped against the same
      start is returned unchanged. */
  lemma ConstrainIsIdempotent(start: Coordinates, grid: SnapGrid, point: Coordinates)
    ensures Constrain(start, grid, Constrain(start, grid, point)) == Constrain(start, grid, point)
  {
    var r := Constrain(start, grid, point);
    SnapRoundIdempotent(point.x - start.x, grid.x);
    SnapRoundIdempotent(point.y - start.y, grid.y);
    assert r.x - start.x == SnapRound(point.x - start.x, grid.x);
    assert r.y - start.y == SnapRound(point.y - start.y, grid.y);
  }

  /** A second mousedown replaces the start that later positions are
      snapped against. */
  method MouseDownReplacesStart(grid: SnapGrid, p1: Pointer, p2: Pointer, point: Coordinates)
    returns (r: Option<Coordinates>)
    ensures r == Some(Constrain(Coordinates(p2.clientX, p2.clientY), grid, point))
  {
    var d := new CdkDraggable(grid);
    d.OnMouseDown(p1);
    d.OnMouseDown(p2);
    r := d.ConstrainPosition(point);
  }
}
