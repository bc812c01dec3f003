/**
 * The overlap state machine the droppable directives run over one drag
 * stream (projects/angular-draggable-droppable/src/lib/droppable.directive.ts
 * and src/droppable.directive.ts, which agree on it).
 *
 * Every sample of the stream is mapped to a boolean, "the pointer is over
 * the element". `dragEnter` follows each change of that boolean to true
 * (`distinctUntilChanged`, so a first sample that is already true counts),
 * `dragOver` every true sample, and `dragLeave` each change from true to
 * false (`pairwise` over the changes). `dragOverActive` is set on enter and
 * cleared on leave, and decides whether completion drops.
 */
module DropOverlap {
  import opened DragTypes

  /** `isCoordinateWithinRectangle`: inclusive on all four edges. Only a
      rectangle that is not inverted on either axis contains a point, and a
      rectangle contains its top-left corner exactly when it is not
      inverted. */
  predicate IsCoordinateWithinRectangle(clientX: int, clientY: int, rect: Rect): (r: bool)
    ensures r ==> rect.left <= rect.right && rect.top <= rect.bottom
    ensures clientX == rect.left && clientY == rect.top ==>
      (r <==> rect.left <= rect.right && rect.top <= rect.bottom)
  {
    clientX >= rect.left && clientX <= rect.right && clientY >= rect.top && clientY <= rect.bottom
  }

  /** The edges belong to the rectangle and the pixels just outside do not. */
  lemma EdgesAreInclusive(rect: Rect, x: int, y: int)
    requires rect.left <= x <= rect.right && rect.top <= y <= rect.bottom
    ensures IsCoordinateWithinRectangle(rect.left, y, rect) && IsCoordinateWithinRectangle(rect.right, y, rect)
    ensures IsCoordinateWithinRectangle(x, rect.top, rect) && IsCoordinateWithinRectangle(x, rect.bottom, rect)
    ensures !IsCoordinateWithinRectangle(rect.left - 1, y, rect) && !IsCoordinateWithinRectangle(rect.right + 1, y, rect)
    ensures !IsCoordinateWithinRectangle(x, rect.top - 1, rect) && !IsCoordinateWithinRectangle(x, rect.bottom + 1, rect)
  {
  }

  /** The `dropData` of the latest sample; undefined before the first. */
  datatype DropData = Undefined | Data(payload: int)

  datatype DropEventKind = DragEnter | DragOver | DragLeave | Drop

  /** An event the droppable emits, `{ dropData }`. */
  datatype DropEvent = DropEvent(kind: DropEventKind, dropData: DropData)

  /** The subscribers' memory: the latest overlap value seen by
      `distinctUntilChanged` (and so by `pairwise`), and `dragOverActive`. */
  datatype Memory = Memory(last: Option<bool>, dragOverActive: bool)

  const Start: Memory := Memory(None, false)

  /** `dragOverActive` is set exactly while the latest sample overlaps. */
  predicate Consistent(m: Memory) {
    m.dragOverActive <==> m.last == Some(true)
  }

  /** One sample, in subscription order: the enter chain, the over chain,
      then the leave chain. */
  function Step(m: Memory, overlaps: bool): (r: (Memory, seq<DropEventKind>))
    ensures r.0.last == Some(overlaps)
    ensures Consistent(m) ==> Consistent(r.0)
    ensures DragEnter in r.1 <==> overlaps && m.last != Some(true)
    ensures DragOver in r.1 <==> overlaps
    ensures DragLeave in r.1 <==> !overlaps && m.last == Some(true)
    ensures Drop !in r.1
  {
    var enter := overlaps && m.last != Some(true);
    var leave := !overlaps && m.last == Some(true);
    var active := if enter then true else if leave then false else m.dragOverActive;
    (Memory(Some(overlaps), active),
     (if enter then [DragEnter] else []) + (if overlaps then [DragOver] else []) + (if leave then [DragLeave] else []))
  }

  /** The events of sample i of a stream, each with that sample's data. */
  function Notify(kinds: seq<DropEventKind>, data: DropData): (events: seq<DropEvent>)
    ensures |events| == |kinds|
    ensures forall i :: 0 <= i < |kinds| ==> events[i] == DropEvent(kinds[i], data)
  {
    seq(|kinds|, i requires 0 <= i < |kinds| => DropEvent(kinds[i], data))
  }

  /** The machine over a whole stream, one group of events per sample. */
  function Run(overlaps: seq<bool>): (r: (Memory, seq<seq<DropEventKind>>))
    ensures |r.1| == |overlaps|
    ensures Consistent(r.0)
    ensures r.0.last == if overlaps == [] then None else Some(overlaps[|overlaps| - 1])
    decreases |overlaps|
  {
    if overlaps == [] then (Start, [])
    else
      var prefix := Run(overlaps[..|overlaps| - 1]);
      var step := Step(prefix.0, overlaps[|overlaps| - 1]);
      (step.0, prefix.1 + [step.1])
  }

  /** The memory after a stream, fed from any memory. */
  function RunFrom(m: Memory, overlaps: seq<bool>): (r: Memory)
    ensures Consistent(m) ==> Consistent(r)
    ensures overlaps != [] ==> r.last == Some(overlaps[|overlaps| - 1])
    decreases |overlaps|
  {
    if overlaps == [] then m else Step(RunFrom(m, overlaps[..|overlaps| - 1]), overlaps[|overlaps| - 1]).0
  }

  /** One more sample steps the machine once from where the stream left it. */
  lemma RunFromSnoc(m: Memory, overlaps: seq<bool>, b: bool)
    ensures RunFrom(m, overlaps + [b]) == Step(RunFrom(m, overlaps), b).0
  {
    assert (overlaps + [b])[..|overlaps|] == overlaps;
  }

  /** Fed from the start, the memory is that of the whole run. */
  lemma {:induction false} RunFromStart(overlaps: seq<bool>)
    ensures RunFrom(Start, overlaps) == Run(overlaps).0
    decreases |overlaps|
  {
    if overlaps != [] {
      RunFromStart(overlaps[..|overlaps| - 1]);
    }
  }

  /** The events for sample i, read off the overlap sequence alone. */
  function Expected(overlaps: seq<bool>, i: nat): seq<DropEventKind>
    requires i < |overlaps|
  {
    (if overlaps[i] && (i == 0 || !overlaps[i - 1]) then [DragEnter] else [])
    + (if overlaps[i] then [DragOver] else [])
    + (if i > 0 && overlaps[i - 1] && !overlaps[i] then [DragLeave] else [])
  }

  /** The machine emits, for every sample, exactly the events its position
      in the sequence calls for: enter on a change to true (or a first true
      sample), over on every true sample, leave on a change from true to
      false; and it ends remembering the last sample. */
  lemma {:induction false} RunIsExpected(overlaps: seq<bool>)
    ensures var r := Run(overlaps);
      && |r.1| == |overlaps|
      && (forall i :: 0 <= i < |overlaps| ==> r.1[i] == Expected(overlaps, i))
      && r.0.last == (if overlaps == [] then None else Some(overlaps[|overlaps| - 1]))
      && Consistent(r.0)
    decreases |overlaps|
  {
    if overlaps != [] {
      var n := |overlaps| - 1;
      var front := overlaps[..n];
      RunIsExpected(front);
      var p := Run(front);
      var r := Run(overlaps);
      var last := Step(p.0, overlaps[n]).1;
      assert r.1 == p.1 + [last];
      assert |p.1| == n;
      StepIsExpected(overlaps, p.0);
      ExtendExpected(overlaps, p.1, last);
    }
  }

  lemma ExtendExpected(overlaps: seq<bool>, groups: seq<seq<DropEventKind>>, last: seq<DropEventKind>)
    requires |groups| + 1 == |overlaps|
    requires forall i :: 0 <= i < |groups| ==> groups[i] == Expected(overlaps[..|groups|], i)
    requires last == Expected(overlaps, |groups|)
    ensures forall i :: 0 <= i < |overlaps| ==> (groups + [last])[i] == Expected(overlaps, i)
  {
    var n := |groups|;
    forall i | 0 <= i < |overlaps|
      ensures (groups + [last])[i] == Expected(overlaps, i)
    {
      if i < n {
        assert (groups + [last])[i] == groups[i];
        ExpectedOfPrefix(overlaps, n, i);
      }
    }
  }

  lemma ExpectedOfPrefix(overlaps: seq<bool>, n: nat, i: nat)
    requires i < n <= |overlaps|
    ensures Expected(overlaps[..n], i) == Expected(overlaps, i)
  {
  }

  lemma StepIsExpected(overlaps: seq<bool>, m: Memory)
    requires |overlaps| > 0
    requires var n := |overlaps| - 1; m.last == (if n == 0 then None else Some(overlaps[n - 1]))
    ensures Step(m, overlaps[|overlaps| - 1]).1 == Expected(overlaps, |overlaps| - 1)
  {
  }

  /** Completion drops exactly when the last sample overlapped: entering
      and then leaving before the release gives no drop. */
  lemma DropIffLastSampleOverlaps(overlaps: seq<bool>)
    ensures Run(overlaps).0.dragOverActive <==> |overlaps| > 0 && overlaps[|overlaps| - 1]
  {
    RunIsExpected(overlaps);
  }

  /** A sample's events never include a drop: appending them keeps the
      events of a stream so far free of drops. */
  lemma NotifyAddsNoDrop(e0: seq<DropEvent>, before: seq<DropEvent>, kinds: seq<DropEventKind>, data: DropData)
    requires |before| >= |e0| && before[..|e0|] == e0
    requires forall k :: |e0| <= k < |before| ==> before[k].kind != Drop
    requires Drop !in kinds
    ensures var after := before + Notify(kinds, data);
      && |after| >= |e0| && after[..|e0|] == e0
      && forall k :: |e0| <= k < |after| ==> after[k].kind != Drop
  {
    var added := Notify(kinds, data);
    var after := before + added;
    assert after[..|before|] == before;
    forall k | |e0| <= k < |after|
      ensures after[k].kind != Drop
    {
      if k >= |before| {
        assert after[k] == added[k - |before|];
        assert added[k - |before|].kind == kinds[k - |before|];
      }
    }
  }

  /** Completion appends a drop exactly when it drops: if the events of a
      stream so far hold no drop, the stream holds one afterwards exactly
      when completion added it. */
  lemma CompletionDrops(e0: seq<DropEvent>, before: seq<DropEvent>, dropped: bool, data: DropData)
    requires |before| >= |e0| && before[..|e0|] == e0
    requires forall k :: |e0| <= k < |before| ==> before[k].kind != Drop
    ensures var after := before + (if dropped then [DropEvent(Drop, data)] else []);
      && |after| >= |e0| && after[..|e0|] == e0
      && ((exists k :: |e0| <= k < |after| && after[k].kind == Drop) <==> dropped)
  {
    var after := before + (if dropped then [DropEvent(Drop, data)] else []);
    assert after[..|before|] == before;
    if dropped {
      assert after[|after| - 1].kind == Drop;
    } else {
      assert after == before;
    }
  }

  /** Enter and leave alternate, starting with enter: over any stream the
      number of leaves so far is the number of enters, or one less while
      the pointer is over the element. */
  lemma {:induction false} EntersAndLeavesAlternate(overlaps: seq<bool>)
    ensures var r := Run(overlaps);
      Count(r.1, DragEnter) == Count(r.1, DragLeave) + (if r.0.dragOverActive then 1 else 0)
    decreases |overlaps|
  {
    if overlaps != [] {
      var n := |overlaps| - 1;
      EntersAndLeavesAlternate(overlaps[..n]);
      RunIsExpected(overlaps[..n]);
      var p := Run(overlaps[..n]);
      var s := Step(p.0, overlaps[n]);
      CountAppend(p.1, [s.1], DragEnter);
      CountAppend(p.1, [s.1], DragLeave);
    }
  }

  /** How many events of a kind the groups hold. */
  function Count(groups: seq<seq<DropEventKind>>, k: DropEventKind): nat
    decreases |groups|
  {
    if groups == [] then 0
    else Count(groups[..|groups| - 1], k) + (if k in groups[|groups| - 1] then 1 else 0)
  }

  lemma {:induction false} CountAppend(a: seq<seq<DropEventKind>>, b: seq<seq<DropEventKind>>, k: DropEventKind)
    requires |b| == 1
    ensures Count(a + b, k) == Count(a, k) + (if k in b[0] then 1 else 0)
  {
    assert (a + b)[..|a + b| - 1] == a;
  }

  /** The hit test of the first rectangle example: a sample at (5, 100) is
      inside {left 0, top 100, right 200, bottom 300}, one at (5, 99) is not,
      so the two samples give enter and over, then leave. */
  lemma BoundaryExample(rect: Rect)
    requires rect == Rect(0, 100, 200, 300)
    ensures Run([IsCoordinateWithinRectangle(5, 100, rect), IsCoordinateWithinRectangle(5, 99, rect)]).1 ==
      [[DragEnter, DragOver], [DragLeave]]
  {
    var o := [IsCoordinateWithinRectangle(5, 100, rect), IsCoordinateWithinRectangle(5, 99, rect)];
    assert o == [true, false];
    assert o[..1] == [true];
    assert [true][..0] == [];
    var r1 := Step(Start, true);
    assert r1.0 == Memory(Some(true), true) && r1.1 == [DragEnter, DragOver];
    var r2 := Step(r1.0, false);
    assert r2.1 == [DragLeave];
  }
}
