/**
 * The graph editor: the node list, the viewport (pan offset and zoom scale)
 * and the one connection being dragged, with the drag callbacks that create,
 * detach and commit links between output and input sockets.
 */
module GraphEditor {
  import opened Wrappers
  import opened Geometry
  import opened NodeModel

  const MinScale: real := 0.1
  const MaxScale: real := 3.0

  /** `max(0.1, min(3, s))`: the zoom scale is kept within [0.1, 3]. */
  function ClampScale(s: real): (r: real)
    ensures MinScale <= r <= MaxScale
    ensures MinScale <= s <= MaxScale ==> r == s
    ensures s < MinScale ==> r == MinScale
    ensures s > MaxScale ==> r == MaxScale
  {
    if s > MaxScale then MaxScale else if s < MinScale then MinScale else s
  }

  /** The transient drag state: the output the connection starts at and its free end, in px. */
  datatype DraggedConnection = DraggedConnection(source: OutputState, point: Offset)

  /** How a callback ended: normally, or by dereferencing an anchor that was never measured. */
  datatype Status = Completed | NullAnchor

  /** What the drop scan sees of one input: no anchor yet, or its anchor point in px. */
  datatype Probe = Unmeasured | At(point: Offset)

  /** The outcome of the drop scan. */
  datatype Hit = NoHit | HitAt(index: nat) | UnmeasuredAt(index: nat)

  predicate Near(q: Offset, p: Offset, radiusSquared: real)
  {
    DistanceSquared(Sub(q, p)) <= radiusSquared
  }

  /** Where the scan stopped: the index of its hit, or the end. */
  function ScanEnd(h: Hit, n: nat): nat
  {
    if h.NoHit? then n else h.index
  }

  /**
   * `firstOrNull` over the probes from index `from` on, with a predicate that
   * throws on an unmeasured anchor: the first probe that is unmeasured or
   * within the radius decides, and everything before it was measured and far.
   */
  function FirstHit(probes: seq<Probe>, p: Offset, radiusSquared: real, from: nat): (h: Hit)
    requires from <= |probes|
    decreases |probes| - from
    ensures h.HitAt? ==> from <= h.index < |probes| && probes[h.index].At?
                         && Near(probes[h.index].point, p, radiusSquared)
    ensures h.UnmeasuredAt? ==> from <= h.index < |probes| && probes[h.index].Unmeasured?
    ensures forall j :: from <= j < ScanEnd(h, |probes|) ==>
              probes[j].At? && !Near(probes[j].point, p, radiusSquared)
  {
    if from == |probes| then NoHit
    else match probes[from]
      case Unmeasured => UnmeasuredAt(from)
      case At(q) => if Near(q, p, radiusSquared) then HitAt(from) else FirstHit(probes, p, radiusSquared, from + 1)
  }

  /** An input's anchor point in px: its node's px offset plus its anchor. */
  ghost function ProbeOf(i: InputState, d: Density): Probe
    reads i`anchor, i.parent`position
  {
    if i.anchor.None? then Unmeasured else At(Add(ToPx(i.parent.position, d), i.anchor.value))
  }

  ghost function Probes(ins: seq<InputState>, d: Density): (r: seq<Probe>)
    reads (set i | i in ins)`anchor, (set i | i in ins :: i.parent)`position
    ensures |r| == |ins|
    ensures forall k :: 0 <= k < |ins| ==> r[k] == ProbeOf(ins[k], d)
  {
    if ins == [] then [] else [ProbeOf(ins[0], d)] + Probes(ins[1..], d)
  }

  /**
   * The node list the editor is given (the `nodes` state list its caller
   * owns), together with the ghost footprint of the nodes and their sockets.
   */
  class Workspace {
    var nodes: seq<NodeState>

    ghost var NodeSet: set<NodeState>
    ghost var InputSet: set<InputState>
    ghost var OutputSet: set<OutputState>

    /**
     * The node set is exactly the nodes, the socket sets hold every socket
     * of every node, each with that node as its parent, and every socket in
     * them belongs to a node of the workspace.
     */
    ghost predicate Shape()
      reads this, NodeSet`inputs, NodeSet`outputs
    {
      && (forall n :: n in nodes ==> n in NodeSet)
      && (forall n :: n in NodeSet ==> n in nodes)
      && (forall n, k :: n in NodeSet && 0 <= k < |n.inputs| ==> n.inputs[k] in InputSet && n.inputs[k].parent == n)
      && (forall n, k :: n in NodeSet && 0 <= k < |n.outputs| ==> n.outputs[k] in OutputSet && n.outputs[k].parent == n)
      && (forall i :: i in InputSet ==> i.parent in NodeSet)
      && (forall o :: o in OutputSet ==> o.parent in NodeSet)
    }

    /** Links stay inside the workspace. */
    ghost predicate Closed()
      reads this`InputSet, this`OutputSet, InputSet`source, OutputSet`targets
    {
      && (forall i :: i in InputSet && i.source != null ==> i.source in OutputSet)
      && (forall o, t :: o in OutputSet && t in o.targets ==> t in InputSet)
    }

    /** Every node's px cache was computed at density `d`. */
    ghost predicate CachesAgree(d: Density)
      reads this`NodeSet, NodeSet`pxOffset, NodeSet`pxOffsetFor
    {
      forall n :: n in NodeSet ==> n.CacheAgrees(d)
    }

    /** The source of every input. */
    ghost function Sources(): map<InputState, OutputState?>
      reads this`InputSet, InputSet`source
    {
      map i | i in InputSet :: i.source
    }

    /** The targets of every output. */
    ghost function Targets(): map<OutputState, seq<InputState>>
      reads this`OutputSet, OutputSet`targets
    {
      map o | o in OutputSet :: o.targets
    }

    /** The links agree in both directions and no output lists an input twice. */
    ghost predicate Consistent()
      reads this`InputSet, this`OutputSet, InputSet`source, OutputSet`targets
    {
      LinksAgree(Sources(), Targets())
    }

    /** Every link joins sockets of the same type. */
    ghost predicate TypesAgree()
      reads this`InputSet, InputSet`source
    {
      SourcesTyped(Sources())
    }

    /** The inputs the drop scan visits are inputs of the workspace. */
    lemma InputsOfWorkspace()
      requires Shape()
      ensures forall i :: i in InputsOf(nodes) ==> i in InputSet
    {
    }

    /**
     * `getPxOffset` on one of the workspace's nodes: the cache is the only
     * thing touched, and the result is the node's position in px.
     */
    method PxOffsetOf(n: NodeState, d: Density) returns (r: Offset)
      requires Shape() && CachesAgree(d) && n in NodeSet
      modifies n`pxOffset, n`pxOffsetFor
      ensures unchanged(this, InputSet, OutputSet)
      ensures Shape() && CachesAgree(d)
      ensures r == ToPx(n.position, d)
    {
      r := n.GetPxOffset(d);
    }

    /**
     * `connector.source = null; source.targets.remove(connector)`: the input
     * loses its source and the first occurrence of it leaves that source's
     * targets.
     */
    method DetachInput(input: InputState)
      requires Closed() && input in InputSet && input.source != null
      modifies input`source, input.source`targets
      ensures unchanged(NodeSet)
      ensures Closed() && input.source == null
      ensures Sources() == old(Sources())[input := null]
      ensures Targets() == old(Targets())[old(input.source) := RemoveFirst(old(input.source.targets), input)]
      ensures old(Consistent()) ==> Consistent()
      ensures old(TypesAgree()) ==> TypesAgree()
    {
      var source := input.source;
      ghost var src, tgt := Sources(), Targets();
      input.source := null;
      source.targets := RemoveFirst(source.targets, input);
      UpdatedMap(src, Sources(), input, null);
      UpdatedMap(tgt, Targets(), source, RemoveFirst(tgt[source], input));
      DetachKeepsLinks(src, tgt, input);
    }

    /**
     * `target.source = source; source.targets.add(target)`: the input names
     * the output as its source and is appended to the output's targets.
     */
    method Connect(target: InputState, source: OutputState)
      requires Closed() && target in InputSet && source in OutputSet
      modifies target`source, source`targets
      ensures unchanged(NodeSet)
      ensures Closed()
      ensures Sources() == old(Sources())[target := source]
      ensures Targets() == old(Targets())[source := old(source.targets) + [target]]
      ensures old(Consistent()) && old(target.source) == null ==> Consistent()
      ensures old(TypesAgree()) && target.socketType == source.socketType ==> TypesAgree()
    {
      ghost var src, tgt := Sources(), Targets();
      target.source := source;
      source.targets := source.targets + [target];
      UpdatedMap(src, Sources(), target, source);
      UpdatedMap(tgt, Targets(), source, tgt[source] + [target]);
      ConnectKeepsLinks(src, tgt, target, source);
    }

    /**
     * The evidently intended commit of a drop: a target that is already
     * connected is first detached from its source, then it is connected.
     */
    method Relink(target: InputState, source: OutputState)
      requires Closed() && target in InputSet && source in OutputSet
      modifies target`source, OutputSet`targets
      ensures unchanged(NodeSet)
      ensures Closed()
      ensures Sources() == old(Sources())[target := source]
      ensures old(target.source) == null ==> Targets() == old(Targets())[source := old(source.targets) + [target]]
      ensures old(target.source) != null ==>
                var former := old(target.source);
                var detached := old(Targets())[former := RemoveFirst(old(former.targets), target)];
                Targets() == detached[source := detached[source] + [target]]
      ensures old(Consistent()) ==> Consistent()
      ensures old(TypesAgree()) && target.socketType == source.socketType ==> TypesAgree()
    {
      if target.source != null {
        ghost var src := Sources();
        DetachInput(target);
        Connect(target, source);
        OverwriteSource(src, target, source);
      } else {
        Connect(target, source);
      }
    }

    /** An empty node list. */
    constructor ()
      ensures Shape() && Closed() && Consistent() && TypesAgree()
      ensures nodes == [] && Sources() == map[] && Targets() == map[]
    {
      nodes := [];
      NodeSet := {};
      InputSet := {};
      OutputSet := {};
    }

    /**
     * `nodes.add(node)` for a node fresh from its template: its sockets are
     * its own and unconnected and its px cache is empty. The new sockets
     * enter the link maps unconnected.
     */
    method AddNode(n: NodeState)
      requires Shape() && Closed()
      requires n !in NodeSet
      requires forall i :: i in n.inputs ==> i.parent == n && i.source == null
      requires forall o :: o in n.outputs ==> o.parent == n && o.targets == []
      requires n.pxOffset == None
      modifies this
      ensures Shape() && Closed()
      ensures nodes == old(nodes) + [n]
      ensures NodeSet == old(NodeSet) + {n}
      ensures Sources() == old(Sources()) + map i | i in n.inputs :: null
      ensures Targets() == old(Targets()) + map o | o in n.outputs :: []
      ensures forall d: Density :: old(CachesAgree(d)) ==> CachesAgree(d)
      ensures old(Consistent()) ==> Consistent()
      ensures old(TypesAgree()) ==> TypesAgree()
    {
      ghost var src, tgt := Sources(), Targets();
      nodes := nodes + [n];
      NodeSet := NodeSet + {n};
      InputSet := InputSet + (set i | i in n.inputs);
      OutputSet := OutputSet + (set o | o in n.outputs);
      assert Shape();
      assert Closed();
      assert forall d: Density :: old(CachesAgree(d)) ==> CachesAgree(d);
      ExtendedMap(src, Sources(), n.inputs, null);
      ExtendedMap(tgt, Targets(), n.outputs, []);
      AddUnconnectedKeepsLinks(src, tgt, n.inputs, n.outputs);
    }
  }

  /**
   * The editor composable: the workspace it shows, the density, the zoom
   * scale and the pan offset. The dragged connection lives in a remembered
   * state cell; each drag callback is handed the cell's value and returns
   * the value it leaves there.
   */
  class Graph {
    const workspace: Workspace
    const density: Density
    var scale: real
    var viewportOffset: Offset

    /** The workspace's shape, closed links and caches agreeing with this density. */
    ghost predicate Ready()
      reads workspace, workspace.NodeSet, workspace.InputSet, workspace.OutputSet
    {
      workspace.Shape() && workspace.Closed() && workspace.CachesAgree(density)
    }

    /** A dragged connection, if any, starts at an output of the workspace. */
    ghost predicate Dragging(dragged: Option<DraggedConnection>)
      reads workspace
    {
      dragged.Some? ==> dragged.value.source in workspace.OutputSet
    }

    /**
     * A fresh editor over a workspace: scale 1, and the pan offset at zero,
     * the initial value of the caller's offset cell.
     */
    constructor (workspace: Workspace, density: Density)
      requires workspace.Shape() && workspace.Closed() && workspace.CachesAgree(density)
      ensures Ready()
      ensures this.workspace == workspace && this.density == density
      ensures scale == 1.0 && viewportOffset == Zero
    {
      this.workspace := workspace;
      this.density := density;
      scale := 1.0;
      viewportOffset := Zero;
    }

    /**
     * Panning by a drag delta reports the offset moved by exactly that delta,
     * unclamped; the offset is stored here as the caller stores what it is told.
     */
    method Pan(delta: Offset)
      modifies this`viewportOffset
      ensures viewportOffset == Add(old(viewportOffset), delta)
    {
      viewportOffset := Add(viewportOffset, delta);
    }

    /**
     * A scroll event moves the scale by a tenth of the wheel delta, clamped
     * to [0.1, 3]. The earlier copy of this handler returns early when the
     * clamped scale equals the current one; that leaves the same scale.
     */
    method Scroll(scrollDeltaY: real)
      modifies this`scale
      ensures MinScale <= scale <= MaxScale
      ensures scale == ClampScale(old(scale) + scrollDeltaY / 10.0)
    {
      var newScale := ClampScale(scale + scrollDeltaY / 10.0);
      scale := newScale;
    }

    /**
     * The callback for a drag event on a socket. With a drag in progress it
     * only moves the free end. Otherwise an output starts a drag at its
     * anchor point; a connected input is first detached (its source cleared
     * and the first occurrence of it removed from that source's targets) and
     * the drag starts from the former source at the input's anchor point; an
     * unconnected input leaves no drag. An unmeasured anchor throws, after
     * the detach has already happened, and the cell keeps its value.
     */
    method OnConnectorDrag(dragged: Option<DraggedConnection>, c: Connector, delta: Offset)
      returns (status: Status, next: Option<DraggedConnection>)
      requires Ready() && Dragging(dragged)
      requires c.InputSocket? ==> c.input in workspace.InputSet
      requires c.OutputSocket? ==> c.output in workspace.OutputSet
      modifies workspace.NodeSet`pxOffset, workspace.NodeSet`pxOffsetFor
      modifies workspace.InputSet`source, workspace.OutputSet`targets
      ensures Ready() && Dragging(next)
      ensures status == NullAnchor ==> next == dragged
      ensures dragged.Some? ==>
                && status == Completed
                && next == Some(dragged.value.(point := Add(dragged.value.point, delta)))
                && workspace.Sources() == old(workspace.Sources())
                && workspace.Targets() == old(workspace.Targets())
      ensures dragged.None? && c.OutputSocket? ==>
                && workspace.Sources() == old(workspace.Sources())
                && workspace.Targets() == old(workspace.Targets())
                && (status == Completed <==> c.output.anchor.Some?)
                && (status == Completed ==> next == Some(DraggedConnection(c.output,
                      Add(Add(ToPx(c.output.parent.position, density), c.output.anchor.value), delta))))
      ensures dragged.None? && c.InputSocket? && old(c.input.source) == null ==>
                && status == Completed && next == None
                && workspace.Sources() == old(workspace.Sources())
                && workspace.Targets() == old(workspace.Targets())
      ensures dragged.None? && c.InputSocket? && old(c.input.source) != null ==>
                var s := old(c.input.source);
                && workspace.Sources() == old(workspace.Sources())[c.input := null]
                && workspace.Targets() == old(workspace.Targets())[s := RemoveFirst(old(s.targets), c.input)]
                && (status == Completed <==> c.input.anchor.Some?)
                && (status == Completed ==> next == Some(DraggedConnection(s,
                      Add(Add(ToPx(c.input.parent.position, density), c.input.anchor.value), delta))))
      ensures old(workspace.Consistent()) ==> workspace.Consistent()
      ensures old(workspace.TypesAgree()) ==> workspace.TypesAgree()
    {
      if dragged.Some? {
        var connection := dragged.value;
        return Completed, Some(connection.(point := Add(connection.point, delta)));
      }
      match c
      case InputSocket(input) =>
        if input.source == null {
          return Completed, None;
        }
        status, next := DetachAndDrag(input, delta);
      case OutputSocket(output) =>
        status, next := DragFromOutput(output, delta);
    }

    /** The drag starts at an output's anchor point; an unmeasured anchor throws and leaves no drag. */
    method DragFromOutput(output: OutputState, delta: Offset) returns (status: Status, next: Option<DraggedConnection>)
      requires Ready() && output in workspace.OutputSet
      modifies output.parent`pxOffset, output.parent`pxOffsetFor
      ensures Ready() && Dragging(next)
      ensures status == Completed <==> output.anchor.Some?
      ensures status == Completed ==> next == Some(DraggedConnection(output,
                Add(Add(ToPx(output.parent.position, density), output.anchor.value), delta)))
      ensures status == NullAnchor ==> next == None
    {
      var px := workspace.PxOffsetOf(output.parent, density);
      if output.anchor.None? {
        return NullAnchor, None;
      }
      return Completed, Some(DraggedConnection(output, Add(Add(px, output.anchor.value), delta)));
    }

    /**
     * A connected input is detached from its source, and the drag restarts
     * from that source at the input's anchor point; an unmeasured anchor
     * throws after the detach and leaves no drag.
     */
    method DetachAndDrag(input: InputState, delta: Offset) returns (status: Status, next: Option<DraggedConnection>)
      requires Ready() && input in workspace.InputSet && input.source != null
      modifies input`source, input.source`targets, input.parent`pxOffset, input.parent`pxOffsetFor
      ensures Ready() && Dragging(next)
      ensures workspace.Sources() == old(workspace.Sources())[input := null]
      ensures workspace.Targets() == old(workspace.Targets())[old(input.source) := RemoveFirst(old(input.source.targets), input)]
      ensures status == Completed <==> input.anchor.Some?
      ensures status == Completed ==> next == Some(DraggedConnection(old(input.source),
                Add(Add(ToPx(input.parent.position, density), input.anchor.value), delta)))
      ensures status == NullAnchor ==> next == None
      ensures old(workspace.Consistent()) ==> workspace.Consistent()
      ensures old(workspace.TypesAgree()) ==> workspace.TypesAgree()
    {
      var source := input.source;
      workspace.DetachInput(input);
      status, next := DragFromInput(input, source, delta);
    }

    /** The drag restarts from `source` at an input's anchor point; an unmeasured anchor throws and leaves no drag. */
    method DragFromInput(input: InputState, source: OutputState, delta: Offset) returns (status: Status, next: Option<DraggedConnection>)
      requires Ready() && input in workspace.InputSet && source in workspace.OutputSet
      modifies input.parent`pxOffset, input.parent`pxOffsetFor
      ensures Ready() && Dragging(next)
      ensures unchanged(workspace, workspace.InputSet, workspace.OutputSet)
      ensures workspace.Sources() == old(workspace.Sources()) && workspace.Targets() == old(workspace.Targets())
      ensures workspace.Consistent() == old(workspace.Consistent()) && workspace.TypesAgree() == old(workspace.TypesAgree())
      ensures status == Completed <==> input.anchor.Some?
      ensures status == Completed ==> next == Some(DraggedConnection(source,
                Add(Add(ToPx(input.parent.position, density), input.anchor.value), delta)))
      ensures status == NullAnchor ==> next == None
    {
      var px := workspace.PxOffsetOf(input.parent, density);
      if input.anchor.None? {
        return NullAnchor, None;
      }
      return Completed, Some(DraggedConnection(source, Add(Add(px, input.anchor.value), delta)));
    }

    /**
     * The drop scan: every input of every node, in node order and then input
     * order, until the first whose anchor point lies within the snapping
     * radius of `point`; reading an unmeasured anchor on the way throws.
     * Only the px caches are touched.
     */
    method ScanForTarget(point: Offset) returns (hit: Hit)
      requires Ready()
      modifies workspace.NodeSet`pxOffset, workspace.NodeSet`pxOffsetFor
      ensures Ready()
      ensures unchanged(workspace, workspace.InputSet, workspace.OutputSet)
      ensures hit == old(FirstHit(Probes(InputsOf(workspace.nodes), density), point, SnapRadiusSquared(density), 0))
    {
      var maxDistance := SnapRadiusSquared(density);
      var all := InputsOf(workspace.nodes);
      ghost var probes := Probes(all, density);
      workspace.InputsOfWorkspace();
      var k := 0;
      while k < |all|
        invariant 0 <= k <= |all|
        invariant Ready()
        invariant forall j :: 0 <= j < |all| ==> all[j] in workspace.InputSet
        invariant FirstHit(probes, point, maxDistance, k) == FirstHit(probes, point, maxDistance, 0)
        modifies workspace.NodeSet`pxOffset, workspace.NodeSet`pxOffsetFor
      {
        var input := all[k];
        var px := workspace.PxOffsetOf(input.parent, density);
        if input.anchor.None? {
          return UnmeasuredAt(k);
        }
        if DistanceSquared(Sub(Add(px, input.anchor.value), point)) <= maxDistance {
          return HitAt(k);
        }
        k := k + 1;
      }
      return NoHit;
    }

    /**
     * The callback for the end of a drag, as written: the first input the
     * scan hits is connected when its type equals the source's type, by
     * setting its source and appending it to the source's targets; then the
     * drag is cleared. A scan that throws leaves the drag in place.
     */
    method OnDragEnd(dragged: Option<DraggedConnection>) returns (status: Status, target: InputState?, next: Option<DraggedConnection>)
      requires Ready() && Dragging(dragged)
      modifies workspace.NodeSet`pxOffset, workspace.NodeSet`pxOffsetFor
      modifies workspace.InputSet`source, workspace.OutputSet`targets
      ensures Ready() && Dragging(next)
      ensures dragged.None? ==> unchanged(workspace.NodeSet)
      ensures dragged.None? ==>
                && status == Completed && target == null && next == None
                && workspace.Sources() == old(workspace.Sources())
                && workspace.Targets() == old(workspace.Targets())
      ensures dragged.Some? ==>
                var connection := dragged.value;
                var all := old(InputsOf(workspace.nodes));
                var hit := old(FirstHit(Probes(all, density), connection.point, SnapRadiusSquared(density), 0));
                && (status == NullAnchor <==> hit.UnmeasuredAt?)
                && (status == NullAnchor ==> next == dragged)
                && (status == Completed ==> next == None)
                && (target != null <==> hit.HitAt? && all[hit.index].socketType == connection.source.socketType)
                && (target != null ==> target == all[hit.index])
      ensures target != null ==>
                && target in workspace.InputSet
                && workspace.Sources() == old(workspace.Sources())[target := dragged.value.source]
                && workspace.Targets() == old(workspace.Targets())[dragged.value.source := old(dragged.value.source.targets) + [target]]
      ensures target == null ==>
                && workspace.Sources() == old(workspace.Sources())
                && workspace.Targets() == old(workspace.Targets())
      ensures old(workspace.TypesAgree()) ==> workspace.TypesAgree()
      ensures old(workspace.Consistent()) && (target == null || old(workspace.Sources())[target] == null) ==>
                workspace.Consistent()
    {
      if dragged.None? {
        return Completed, null, None;
      }
      var connection := dragged.value;
      var all := InputsOf(workspace.nodes);
      workspace.InputsOfWorkspace();
      var hit := ScanForTarget(connection.point);
      if hit.UnmeasuredAt? {
        return NullAnchor, null, dragged;
      }
      target := Drop(connection.source, all, hit);
      return Completed, target, None;
    }

    /**
     * The drop as evidently intended: the same scan and type test, but a
     * target that is already connected is detached from its old source
     * before it is connected, so the links stay in agreement on every drop.
     */
    method OnDragEndRelinking(dragged: Option<DraggedConnection>) returns (status: Status, target: InputState?, next: Option<DraggedConnection>)
      requires Ready() && Dragging(dragged)
      modifies workspace.NodeSet`pxOffset, workspace.NodeSet`pxOffsetFor
      modifies workspace.InputSet`source, workspace.OutputSet`targets
      ensures Ready() && Dragging(next)
      ensures dragged.None? ==> unchanged(workspace.NodeSet)
      ensures dragged.None? ==>
                && status == Completed && target == null && next == None
                && workspace.Sources() == old(workspace.Sources())
                && workspace.Targets() == old(workspace.Targets())
      ensures dragged.Some? ==>
                var connection := dragged.value;
                var all := old(InputsOf(workspace.nodes));
                var hit := old(FirstHit(Probes(all, density), connection.point, SnapRadiusSquared(density), 0));
                && (status == NullAnchor <==> hit.UnmeasuredAt?)
                && (status == NullAnchor ==> next == dragged)
                && (status == Completed ==> next == None)
                && (target != null <==> hit.HitAt? && all[hit.index].socketType == connection.source.socketType)
                && (target != null ==> target == all[hit.index])
      ensures target != null ==> target in workspace.InputSet
      ensures target != null ==>
                var source := dragged.value.source;
                var former := old(workspace.Sources())[target];
                && workspace.Sources() == old(workspace.Sources())[target := source]
                && (former == null ==>
                      workspace.Targets() == old(workspace.Targets())[source := old(source.targets) + [target]])
                && (former != null ==>
                      var detached := old(workspace.Targets())[former := RemoveFirst<InputState>(old(former.targets), target)];
                      workspace.Targets() == detached[source := detached[source] + [target]])
      ensures target == null ==>
                && workspace.Sources() == old(workspace.Sources())
                && workspace.Targets() == old(workspace.Targets())
      ensures old(workspace.TypesAgree()) ==> workspace.TypesAgree()
      ensures old(workspace.Consistent()) ==> workspace.Consistent()
    {
      if dragged.None? {
        return Completed, null, None;
      }
      var connection := dragged.value;
      var all := InputsOf(workspace.nodes);
      workspace.InputsOfWorkspace();
      var hit := ScanForTarget(connection.point);
      if hit.UnmeasuredAt? {
        return NullAnchor, null, dragged;
      }
      target := DropRelinking(connection.source, all, hit);
      return Completed, target, None;
    }

    /**
     * The commit after the scan, as written: a hit input of the source's
     * type is connected to it.
     */
    method Drop(source: OutputState, all: seq<InputState>, hit: Hit) returns (target: InputState?)
      requires Ready() && source in workspace.OutputSet
      requires forall j :: 0 <= j < |all| ==> all[j] in workspace.InputSet
      requires hit.HitAt? ==> hit.index < |all|
      modifies workspace.InputSet`source, workspace.OutputSet`targets
      ensures Ready()
      ensures target != null <==> hit.HitAt? && all[hit.index].socketType == source.socketType
      ensures target != null ==>
                && target == all[hit.index]
                && workspace.Sources() == old(workspace.Sources())[target := source]
                && workspace.Targets() == old(workspace.Targets())[source := old(source.targets) + [target]]
      ensures target == null ==>
                && workspace.Sources() == old(workspace.Sources())
                && workspace.Targets() == old(workspace.Targets())
      ensures old(workspace.TypesAgree()) ==> workspace.TypesAgree()
      ensures old(workspace.Consistent()) && (target == null || old(workspace.Sources())[target] == null) ==>
                workspace.Consistent()
    {
      if hit.HitAt? && all[hit.index].socketType == source.socketType {
        target := all[hit.index];
        workspace.Connect(target, source);
      } else {
        target := null;
      }
    }

    /**
     * The commit after the scan, as evidently intended: a hit input of the
     * source's type is detached from its former source, if any, and then
     * connected.
     */
    method DropRelinking(source: OutputState, all: seq<InputState>, hit: Hit) returns (target: InputState?)
      requires Ready() && source in workspace.OutputSet
      requires forall j :: 0 <= j < |all| ==> all[j] in workspace.InputSet
      requires hit.HitAt? ==> hit.index < |all|
      modifies workspace.InputSet`source, workspace.OutputSet`targets
      ensures Ready()
      ensures target != null <==> hit.HitAt? && all[hit.index].socketType == source.socketType
      ensures target != null ==> target == all[hit.index] && target in workspace.InputSet
      ensures target != null ==>
                var former := old(workspace.Sources())[target];
                && workspace.Sources() == old(workspace.Sources())[target := source]
                && (former == null ==>
                      workspace.Targets() == old(workspace.Targets())[source := old(source.targets) + [target]])
                && (former != null ==>
                      var detached := old(workspace.Targets())[former := RemoveFirst<InputState>(old(former.targets), target)];
                      workspace.Targets() == detached[source := detached[source] + [target]])
      ensures target == null ==>
                && workspace.Sources() == old(workspace.Sources())
                && workspace.Targets() == old(workspace.Targets())
      ensures old(workspace.TypesAgree()) ==> workspace.TypesAgree()
      ensures old(workspace.Consistent()) ==> workspace.Consistent()
    {
      if hit.HitAt? && all[hit.index].socketType == source.socketType {
        target := all[hit.index];
        workspace.Relink(target, source);
      } else {
        target := null;
      }
    }
  }

  /**
   * The links seen as two maps, each input's source and each output's
   * targets, agree in both directions: a connected input is listed by its
   * source, every listed target names that output as its source, and no
   * output lists an input twice.
   */
  ghost predicate LinksAgree(src: map<InputState, OutputState?>, tgt: map<OutputState, seq<InputState>>)
  {
    && (forall i :: i in src && src[i] != null ==> src[i] in tgt && i in tgt[src[i]])
    && (forall o, t :: o in tgt && t in tgt[o] ==> t in src && src[t] == o)
    && (forall o :: o in tgt ==> NoDuplicates(tgt[o]))
  }

  /** Every link joins sockets of the same type. */
  ghost predicate SourcesTyped(src: map<InputState, OutputState?>)
  {
    forall i :: i in src && src[i] != null ==> src[i].socketType == i.socketType
  }

  /** Detaching a connected input from its source keeps the links in agreement. */
  lemma DetachKeepsLinks(src: map<InputState, OutputState?>, tgt: map<OutputState, seq<InputState>>, i: InputState)
    requires i in src && src[i] != null
    ensures LinksAgree(src, tgt) ==> LinksAgree(src[i := null], tgt[src[i] := RemoveFirst(tgt[src[i]], i)])
    ensures SourcesTyped(src) ==> SourcesTyped(src[i := null])
  {
    if !LinksAgree(src, tgt) {
      return;
    }
    var s := src[i];
    RemoveFirstNoDuplicates(tgt[s], i);
    var src', tgt' := src[i := null], tgt[s := RemoveFirst(tgt[s], i)];
    forall j | j in src' && src'[j] != null
      ensures src'[j] in tgt' && j in tgt'[src'[j]]
    {
      assert j != i && src[j] == src'[j];
      assert j in tgt[src[j]];
    }
    forall o, t | o in tgt' && t in tgt'[o]
      ensures t in src' && src'[t] == o
    {
      assert t in tgt[o];
    }
  }

  /** Connecting an unconnected input to an output keeps the links in agreement. */
  lemma ConnectKeepsLinks(src: map<InputState, OutputState?>, tgt: map<OutputState, seq<InputState>>,
                          t: InputState, o: OutputState)
    requires t in src && o in tgt
    ensures LinksAgree(src, tgt) && src[t] == null ==> LinksAgree(src[t := o], tgt[o := tgt[o] + [t]])
    ensures SourcesTyped(src) && o.socketType == t.socketType ==> SourcesTyped(src[t := o])
  {
    if !LinksAgree(src, tgt) || src[t] != null {
      return;
    }
    assert t !in tgt[o];
    var src', tgt' := src[t := o], tgt[o := tgt[o] + [t]];
    forall p, u | p in tgt' && u in tgt'[p]
      ensures u in src' && src'[u] == p
    {
      if u != t {
        assert u in tgt[p];
      }
    }
    assert NoDuplicates(tgt'[o]);
  }

  /**
   * Connecting an input that is already connected, anywhere, without
   * detaching it first breaks the agreement: either its former source still
   * lists it, or `o` lists it twice.
   */
  lemma ConnectingConnectedInputBreaksLinks(src: map<InputState, OutputState?>, tgt: map<OutputState, seq<InputState>>,
                                            t: InputState, o: OutputState)
    requires LinksAgree(src, tgt)
    requires t in src && src[t] != null && o in tgt
    ensures !LinksAgree(src[t := o], tgt[o := tgt[o] + [t]])
  {
    var p := src[t];
    var tgt' := tgt[o := tgt[o] + [t]];
    assert t in tgt[p];
    if p == o {
      var k :| 0 <= k < |tgt[o]| && tgt[o][k] == t;
      assert tgt'[o][k] == tgt'[o][|tgt[o]|];
    } else {
      assert p in tgt' && t in tgt'[p];
      assert src[t := o][t] != p;
    }
  }

  /** Setting an input's source to null and then to `o` is setting it to `o`. */
  lemma OverwriteSource(src: map<InputState, OutputState?>, t: InputState, o: OutputState?)
    ensures src[t := null][t := o] == src[t := o]
  {
  }

  /** Detaching a connected input and then connecting it, as the corrected drop does, keeps the links in agreement. */
  lemma RelinkKeepsLinks(src: map<InputState, OutputState?>, tgt: map<OutputState, seq<InputState>>,
                         t: InputState, o: OutputState)
    requires LinksAgree(src, tgt)
    requires t in src && src[t] != null && o in tgt
    ensures var detached := tgt[src[t] := RemoveFirst(tgt[src[t]], t)];
            LinksAgree(src[t := o], detached[o := detached[o] + [t]])
  {
    var detached := tgt[src[t] := RemoveFirst(tgt[src[t]], t)];
    DetachKeepsLinks(src, tgt, t);
    ConnectKeepsLinks(src[t := null], detached, t, o);
    OverwriteSource(src, t, o);
  }

  /** A map with the keys of `m` that agrees with it except at `k`, where it holds `v`, is `m` updated at `k`. */
  lemma UpdatedMap<K, V>(m: map<K, V>, m': map<K, V>, k: K, v: V)
    requires forall j :: j in m' <==> j in m
    requires forall j :: j in m && j != k ==> m'[j] == m[j]
    requires k in m' && m'[k] == v
    ensures m' == m[k := v]
  {
  }

  /** A map that agrees with `m` off `ks` and maps every key of `ks` to `v` is `m` extended by them. */
  lemma ExtendedMap<K, V>(m: map<K, V>, m': map<K, V>, ks: seq<K>, v: V)
    requires forall k :: k in m' <==> k in m || k in ks
    requires forall k :: k in m && k !in ks ==> m'[k] == m[k]
    requires forall k :: k in ks ==> m'[k] == v
    ensures m' == m + map k | k in ks :: v
  {
  }

  /** Adding sockets that are unconnected and new to the graph keeps the links in agreement. */
  lemma AddUnconnectedKeepsLinks(src: map<InputState, OutputState?>, tgt: map<OutputState, seq<InputState>>,
                                 ins: seq<InputState>, outs: seq<OutputState>)
    requires forall i :: i in ins ==> i !in src
    requires forall o :: o in outs ==> o !in tgt
    ensures LinksAgree(src, tgt) ==> LinksAgree(src + map i | i in ins :: null, tgt + map o | o in outs :: [])
    ensures SourcesTyped(src) ==> SourcesTyped(src + map i | i in ins :: null)
  {
    if !LinksAgree(src, tgt) {
      return;
    }
    var src' := src + map i | i in ins :: null;
    var tgt' := tgt + map o | o in outs :: [];
    forall j | j in src' && src'[j] != null
      ensures src'[j] in tgt' && j in tgt'[src'[j]]
    {
      assert j in src && src'[j] == src[j];
    }
    forall p, u | p in tgt' && u in tgt'[p]
      ensures u in src' && src'[u] == p
    {
      assert p in tgt && tgt'[p] == tgt[p];
    }
  }
}
