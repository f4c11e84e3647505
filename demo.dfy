/**
 * The demo graph the application starts with, at density 1 and with every
 * anchor measured at its node's origin: Node1 at (100, 100) with Output of
 * type 1, Node2 at (200, 200) with Input of type 1 and Output2 of type 2,
 * and Node3 at (100, 300) with Input2 of type 2. The drop scan visits the
 * inputs in node order, Input and then Input2.
 */
module Demo {
  import opened Geometry
  import opened GraphEditor

  const Density1: Density := 1.0

  /** Where a drag that starts on a socket of a node at `position` is after moving by `delta`. */
  function DragPoint(position: Offset, delta: Offset): Offset
  {
    Add(Add(ToPx(position, Density1), Zero), delta)
  }

  /** What the drop scan sees: the anchor points of Input and Input2. */
  function DemoProbes(): seq<Probe>
  {
    [At(Add(ToPx(Offset(200.0, 200.0), Density1), Zero)), At(Add(ToPx(Offset(100.0, 300.0), Density1), Zero))]
  }

  /** The socket types of Input and Input2, in scan order. */
  function DemoInputTypes(): seq<int>
  {
    [1, 2]
  }

  /** The concrete values the scan works with. */
  lemma DemoValues()
    ensures SnapRadiusSquared(Density1) == 50.0
    ensures DemoProbes() == [At(Offset(200.0, 200.0)), At(Offset(100.0, 300.0))]
  {
    assert ToPx(Offset(200.0, 200.0), Density1) == Offset(200.0, 200.0);
    assert ToPx(Offset(100.0, 300.0), Density1) == Offset(100.0, 300.0);
  }

  /** A drag from Output (type 1) released on Input (type 1) hits Input first, and the types agree. */
  lemma OutputOntoInputConnects()
    ensures var hit := FirstHit(DemoProbes(), DragPoint(Offset(100.0, 100.0), Offset(100.0, 100.0)), SnapRadiusSquared(Density1), 0);
            hit == HitAt(0) && DemoInputTypes()[hit.index] == 1
  {
    DemoValues();
    var p := DragPoint(Offset(100.0, 100.0), Offset(100.0, 100.0));
    assert p == Offset(200.0, 200.0);
    assert Near(Offset(200.0, 200.0), p, 50.0);
  }

  /** A drag from Output (type 1) released on Input2 (type 2) passes Input, hits Input2, and the types differ. */
  lemma OutputOntoInput2Refused()
    ensures var hit := FirstHit(DemoProbes(), DragPoint(Offset(100.0, 100.0), Offset(0.0, 200.0)), SnapRadiusSquared(Density1), 0);
            hit == HitAt(1) && DemoInputTypes()[hit.index] != 1
  {
    DemoValues();
    var p := DragPoint(Offset(100.0, 100.0), Offset(0.0, 200.0));
    assert p == Offset(100.0, 300.0);
    assert DistanceSquared(Sub(Offset(200.0, 200.0), p)) == 20000.0;
    assert !Near(Offset(200.0, 200.0), p, 50.0);
    assert Near(Offset(100.0, 300.0), p, 50.0);
  }

  /** A drag from Output2 (type 2) released on Input2 (type 2) passes Input, hits Input2, and the types agree. */
  lemma Output2OntoInput2Connects()
    ensures var hit := FirstHit(DemoProbes(), DragPoint(Offset(200.0, 200.0), Offset(-100.0, 100.0)), SnapRadiusSquared(Density1), 0);
            hit == HitAt(1) && DemoInputTypes()[hit.index] == 2
  {
    DemoValues();
    var p := DragPoint(Offset(200.0, 200.0), Offset(-100.0, 100.0));
    assert p == Offset(100.0, 300.0);
    assert DistanceSquared(Sub(Offset(200.0, 200.0), p)) == 20000.0;
    assert !Near(Offset(200.0, 200.0), p, 50.0);
    assert Near(Offset(100.0, 300.0), p, 50.0);
  }

  /** A release 4 px right of and 3 px below Input still snaps to it; one 8 px to the right hits nothing. */
  lemma SnappingRadius()
    ensures FirstHit(DemoProbes(), DragPoint(Offset(100.0, 100.0), Offset(104.0, 103.0)), SnapRadiusSquared(Density1), 0) == HitAt(0)
    ensures FirstHit(DemoProbes(), DragPoint(Offset(100.0, 100.0), Offset(108.0, 100.0)), SnapRadiusSquared(Density1), 0) == NoHit
  {
    DemoValues();
    var near := DragPoint(Offset(100.0, 100.0), Offset(104.0, 103.0));
    assert near == Offset(204.0, 203.0);
    assert DistanceSquared(Sub(Offset(200.0, 200.0), near)) == 25.0;
    var far := DragPoint(Offset(100.0, 100.0), Offset(108.0, 100.0));
    assert far == Offset(208.0, 200.0);
    assert DistanceSquared(Sub(Offset(200.0, 200.0), far)) == 64.0;
    assert DistanceSquared(Sub(Offset(100.0, 300.0), far)) == 21664.0;
    assert !Near(Offset(200.0, 200.0), far, 50.0);
    assert !Near(Offset(100.0, 300.0), far, 50.0);
  }
}
