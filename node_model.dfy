/**
 * Nodes and their sockets. A node owns ordered input and output sockets and
 * caches its position in pixels; an input may be linked to one output and an
 * output lists the inputs it feeds. Links are plain object references and
 * carry no ownership.
 */
module NodeModel {
  import opened Wrappers
  import opened Geometry
  import opened InputWidget

  /** A node: title, position in dp, sockets in display order, and the px-offset cache. */
  class NodeState {
    var title: string
    var inputs: seq<InputState>
    var outputs: seq<OutputState>
    var position: Offset
    var pxOffset: Option<Offset>
    var pxOffsetFor: Option<Offset>

    constructor (title: string, inputs: seq<InputState>, outputs: seq<OutputState>, position: Offset)
      ensures this.title == title && this.inputs == inputs && this.outputs == outputs
      ensures this.position == position
      ensures pxOffset == None && pxOffsetFor == None
    {
      this.title := title;
      this.inputs := inputs;
      this.outputs := outputs;
      this.position := position;
      pxOffset := None;
      pxOffsetFor := None;
    }

    /** A cached pixel offset is the position it was computed for, at density `d`. */
    ghost predicate CacheAgrees(d: Density)
      reads this`pxOffset, this`pxOffsetFor
    {
      pxOffset.Some? ==> pxOffsetFor.Some? && pxOffset.value == ToPx(pxOffsetFor.value, d)
    }

    /** The constructor leaves the cache empty, which agrees with every density. */
    lemma EmptyCacheAgrees(d: Density)
      requires pxOffset == None
      ensures CacheAgrees(d)
    {
    }

    /**
     * The node's position in px. The result is recomputed when the cache is
     * empty or was filled for another position, and then stored with that
     * position as its key; otherwise the cached value is returned as it is,
     * whatever the density passed now.
     */
    method GetPxOffset(d: Density) returns (r: Offset)
      modifies this`pxOffset, this`pxOffsetFor
      ensures pxOffset == Some(r) && pxOffsetFor == Some(position)
      ensures old(pxOffset).Some? && old(pxOffsetFor) == Some(position) ==> r == old(pxOffset).value
      ensures old(pxOffset).None? || old(pxOffsetFor) != Some(position) ==> r == ToPx(position, d)
      ensures old(CacheAgrees(d)) ==> r == ToPx(position, d) && CacheAgrees(d)
    {
      var cached := pxOffset;
      if cached.None? || pxOffsetFor != Some(position) {
        var offset := ToPx(position, d);
        pxOffset := Some(offset);
        pxOffsetFor := Some(position);
        return offset;
      }
      return cached.value;
    }

    /** Dragging the node body by a px delta moves its dp position by that delta in dp. */
    method Drag(delta: Offset, d: Density)
      modifies this`position
      ensures position == Add(old(position), ToDp(delta, d))
      ensures ToPx(position, d) == Add(ToPx(old(position), d), delta)
    {
      position := Add(position, ToDp(delta, d));
    }

    /** `inputs.add(input)`. */
    method AddInput(input: InputState)
      modifies this`inputs
      ensures inputs == old(inputs) + [input]
    {
      inputs := inputs + [input];
    }

    /** `outputs.add(output)`. */
    method AddOutput(output: OutputState)
      modifies this`outputs
      ensures outputs == old(outputs) + [output]
    {
      outputs := outputs + [output];
    }
  }

  /** An input socket: its node, caption, type tag, measured anchor, link and optional editor. */
  class InputState {
    const parent: NodeState
    var caption: string
    const socketType: int
    var anchor: Option<Offset>
    var source: OutputState?
    var widget: Option<InputWidget>

    constructor (parent: NodeState, caption: string, socketType: int, widget: Option<InputWidget>)
      ensures this.parent == parent && this.caption == caption && this.socketType == socketType
      ensures this.widget == widget
      ensures anchor == None && source == null
    {
      this.parent := parent;
      this.caption := caption;
      this.socketType := socketType;
      this.widget := widget;
      anchor := None;
      source := null;
    }

    /** An input built without an editor, as the widget parameter's default gives. */
    constructor WithoutWidget(parent: NodeState, caption: string, socketType: int)
      ensures this.parent == parent && this.caption == caption && this.socketType == socketType
      ensures widget == None && anchor == None && source == null
    {
      this.parent := parent;
      this.caption := caption;
      this.socketType := socketType;
      widget := None;
      anchor := None;
      source := null;
    }

    /** The bound editor accepts edits only while nothing is connected. */
    predicate EditorEnabled()
      reads this
    {
      source == null
    }

    /** `connectionPointOffset = (offset - nodeRootPos!!) / scale`; an unmeasured node root throws. */
    method OnPointPositioned(measured: Offset, nodeRootPos: Option<Offset>, scale: real) returns (measuredOk: bool)
      requires scale > 0.0
      modifies this`anchor
      ensures measuredOk <==> nodeRootPos.Some?
      ensures measuredOk ==> anchor == Some(AnchorFromMeasurement(measured, nodeRootPos.value, scale))
      ensures !measuredOk ==> anchor == old(anchor)
    {
      if nodeRootPos.None? {
        return false;
      }
      anchor := Some(AnchorFromMeasurement(measured, nodeRootPos.value, scale));
      return true;
    }
  }

  /** An output socket: its node, caption, type tag, measured anchor, and the inputs it feeds. */
  class OutputState {
    const parent: NodeState
    var caption: string
    const socketType: int
    var anchor: Option<Offset>
    var targets: seq<InputState>

    constructor (parent: NodeState, caption: string, socketType: int)
      ensures this.parent == parent && this.caption == caption && this.socketType == socketType
      ensures anchor == None && targets == []
    {
      this.parent := parent;
      this.caption := caption;
      this.socketType := socketType;
      anchor := None;
      targets := [];
    }

    /** `connectionPointOffset = (offset - nodeRootPos!!) / scale`; an unmeasured node root throws. */
    method OnPointPositioned(measured: Offset, nodeRootPos: Option<Offset>, scale: real) returns (measuredOk: bool)
      requires scale > 0.0
      modifies this`anchor
      ensures measuredOk <==> nodeRootPos.Some?
      ensures measuredOk ==> anchor == Some(AnchorFromMeasurement(measured, nodeRootPos.value, scale))
      ensures !measuredOk ==> anchor == old(anchor)
    {
      if nodeRootPos.None? {
        return false;
      }
      anchor := Some(AnchorFromMeasurement(measured, nodeRootPos.value, scale));
      return true;
    }
  }

  /** A socket of either kind, as the drag callbacks receive it. */
  datatype Connector = InputSocket(input: InputState) | OutputSocket(output: OutputState)

  /** `list.remove(x)`: deletes the first occurrence of `x`, if any. */
  function RemoveFirst<T(==)>(s: seq<T>, x: T): (r: seq<T>)
    ensures x !in s ==> r == s
    ensures x in s ==> |r| == |s| - 1
    ensures multiset(r) == multiset(s) - multiset{x}
    ensures forall y :: y in r ==> y in s
    ensures forall y :: y in s && y != x ==> y in r
  {
    if s == [] then []
    else
      assert s == [s[0]] + s[1..];
      if s[0] == x then s[1..]
      else [s[0]] + RemoveFirst(s[1..], x)
  }

  lemma ConsAppend<T>(a: T, b: seq<T>, c: seq<T>)
    ensures [a] + (b + c) == ([a] + b) + c
  {
  }

  /** Slicing past the head of a list is slicing its tail. */
  lemma SlicesAfterHead<T>(s: seq<T>, k: nat)
    requires k + 1 < |s|
    ensures s[..k + 1] == [s[0]] + s[1..][..k]
    ensures s[k + 1 + 1..] == s[1..][k + 1..]
  {
  }

  /** The occurrence `RemoveFirst` deletes is the first one: nothing equal to `x` comes before it. */
  lemma {:induction false} RemoveFirstFirstOccurrence<T>(s: seq<T>, x: T)
    requires x in s
    ensures exists k :: 0 <= k < |s| && s[k] == x && x !in s[..k] && RemoveFirst(s, x) == s[..k] + s[k + 1..]
  {
    if s[0] == x {
      assert s[..0] == [];
      assert RemoveFirst(s, x) == s[..0] + s[0 + 1..];
    } else {
      var t := s[1..];
      assert x in t;
      RemoveFirstFirstOccurrence(t, x);
      var k :| 0 <= k < |t| && t[k] == x && x !in t[..k] && RemoveFirst(t, x) == t[..k] + t[k + 1..];
      assert RemoveFirst(s, x) == s[..k + 1] + s[k + 1 + 1..] by {
        SlicesAfterHead(s, k);
        ConsAppend(s[0], t[..k], t[k + 1..]);
        assert RemoveFirst(s, x) == [s[0]] + RemoveFirst(t, x);
      }
      assert x !in s[..k + 1] by {
        SlicesAfterHead(s, k);
      }
    }
  }

  /** No element occurs twice. */
  predicate NoDuplicates<T(==)>(s: seq<T>)
  {
    forall j, k :: 0 <= j < k < |s| ==> s[j] != s[k]
  }

  /** Removing the only occurrence of `x` leaves no `x` and no duplicate. */
  lemma RemoveFirstNoDuplicates<T>(s: seq<T>, x: T)
    requires NoDuplicates(s)
    ensures x !in RemoveFirst(s, x)
    ensures NoDuplicates(RemoveFirst(s, x))
  {
    var r := RemoveFirst(s, x);
    assert multiset(s)[x] <= 1 by { NoDuplicatesCount(s, x); }
    assert multiset(r)[x] == 0;
    MultisetNoDuplicates(s, r);
  }

  lemma {:induction false} NoDuplicatesCount<T>(s: seq<T>, x: T)
    requires NoDuplicates(s)
    ensures multiset(s)[x] <= 1
  {
    if s != [] {
      assert s == [s[0]] + s[1..];
      assert NoDuplicates(s[1..]);
      NoDuplicatesCount(s[1..], x);
      if s[0] == x {
        assert x !in s[1..];
      }
    }
  }

  /** A sequence whose multiset is below that of a duplicate-free sequence has no duplicates either. */
  lemma {:induction false} MultisetNoDuplicates<T>(s: seq<T>, r: seq<T>)
    requires NoDuplicates(s)
    requires multiset(r) <= multiset(s)
    ensures NoDuplicates(r)
  {
    forall j, k | 0 <= j < k < |r| ensures r[j] != r[k] {
      if r[j] == r[k] {
        var x := r[j];
        assert multiset(r)[x] >= 2 by { TwoOccurrences(r, j, k); }
        NoDuplicatesCount(s, x);
        assert false;
      }
    }
  }

  lemma {:induction false} TwoOccurrences<T>(r: seq<T>, j: nat, k: nat)
    requires j < k < |r| && r[j] == r[k]
    ensures multiset(r)[r[j]] >= 2
  {
    assert r == r[..j] + [r[j]] + r[j+1..k] + [r[k]] + r[k+1..];
  }

  /** The inputs without an editor, in their order; they share the rows with the outputs. */
  function InputsWithoutWidget(ins: seq<InputState>): (r: seq<InputState>)
    reads set i | i in ins
    ensures |r| <= |ins|
    ensures forall i :: i in r ==> i in ins && i.widget.None?
    ensures forall i :: i in ins && i.widget.None? ==> i in r
  {
    if ins == [] then []
    else if ins[0].widget.None? then [ins[0]] + InputsWithoutWidget(ins[1..])
    else InputsWithoutWidget(ins[1..])
  }

  /** The inputs with an editor, in their order; each gets a row of its own below. */
  function WidgetInputs(ins: seq<InputState>): (r: seq<InputState>)
    reads set i | i in ins
    ensures |r| <= |ins|
    ensures forall i :: i in r ==> i in ins && i.widget.Some?
    ensures forall i :: i in ins && i.widget.Some? ==> i in r
  {
    if ins == [] then []
    else if ins[0].widget.Some? then [ins[0]] + WidgetInputs(ins[1..])
    else WidgetInputs(ins[1..])
  }

  /** `s` is an interleaving of `a` and `b`: both keep the relative order they have in `s`. */
  ghost predicate Interleaving<T>(s: seq<T>, a: seq<T>, b: seq<T>)
    decreases |s|
  {
    if s == [] then a == [] && b == []
    else
      || (a != [] && a[0] == s[0] && Interleaving(s[1..], a[1..], b))
      || (b != [] && b[0] == s[0] && Interleaving(s[1..], a, b[1..]))
  }

  /** The two input lists split the node's inputs, each keeping their order, and their sizes add up. */
  lemma {:induction false} InputsPartition(ins: seq<InputState>)
    ensures Interleaving(ins, InputsWithoutWidget(ins), WidgetInputs(ins))
    ensures |InputsWithoutWidget(ins)| + |WidgetInputs(ins)| == |ins|
  {
    if ins != [] {
      InputsPartition(ins[1..]);
    }
  }

  /**
   * The number of socket rows of a node: row `k` holds the `k`-th input
   * without an editor and the `k`-th output, either of which may be missing,
   * and no row is empty.
   */
  function RowCount(inputs: seq<InputState>, outputs: seq<OutputState>): (r: nat)
    reads set i | i in inputs
    ensures r >= |InputsWithoutWidget(inputs)| && r >= |outputs|
    ensures r == |InputsWithoutWidget(inputs)| || r == |outputs|
  {
    var left := |InputsWithoutWidget(inputs)|;
    if left >= |outputs| then left else |outputs|
  }

  /** The editor shown for an input that carries one. */
  datatype EditorKind = TextEditor | IntEditor | FloatEditor | DropdownEditor

  datatype EditorView = EditorView(kind: EditorKind, enabled: bool, caption: Option<string>)

  /**
   * The editor row of an input: `widget!!` throws when there is no editor
   * (`None` here); otherwise its kind follows the widget's kind, it is enabled
   * while nothing is connected, and every kind but the text editor shows the
   * input's caption (its Kotlin `label`).
   */
  function WidgetEditor(i: InputState): (r: Option<EditorView>)
    reads i
    ensures r.None? <==> i.widget.None?
    ensures r.Some? ==> r.value.enabled == i.EditorEnabled()
    ensures r.Some? ==> (r.value.kind == TextEditor <==> i.widget.value.TextWidget?)
    ensures r.Some? ==> (r.value.kind == IntEditor <==> i.widget.value.IntWidget?)
    ensures r.Some? ==> (r.value.kind == FloatEditor <==> i.widget.value.FloatWidget?)
    ensures r.Some? ==> (r.value.kind == DropdownEditor <==> i.widget.value.DropdownWidget?)
    ensures r.Some? ==> (r.value.caption.Some? <==> !i.widget.value.TextWidget?)
    ensures r.Some? && r.value.caption.Some? ==> r.value.caption.value == i.caption
  {
    if i.widget.None? then None
    else
      var enabled := i.source == null;
      match i.widget.value
      case TextWidget(_) => Some(EditorView(TextEditor, enabled, None))
      case IntWidget(_) => Some(EditorView(IntEditor, enabled, Some(i.caption)))
      case FloatWidget(_) => Some(EditorView(FloatEditor, enabled, Some(i.caption)))
      case DropdownWidget(_) => Some(EditorView(DropdownEditor, enabled, Some(i.caption)))
  }

  /** Keys the node reacts to. */
  datatype Key = DeleteKey | OtherKey(code: nat)

  datatype KeyEventType = KeyDown | KeyUp | UnknownKeyEvent

  /** What the node's key handler does: whether it consumes the event and whether it asks for deletion. */
  datatype KeyResponse = KeyResponse(consumed: bool, deleteRequested: bool)

  /**
   * The Delete key is always consumed and asks for deletion only when
   * pressed; every other key is passed on untouched.
   */
  function OnKeyEvent(key: Key, kind: KeyEventType): (r: KeyResponse)
    ensures r.consumed <==> key == DeleteKey
    ensures r.deleteRequested <==> key == DeleteKey && kind == KeyDown
  {
    if key == DeleteKey then KeyResponse(true, kind == KeyDown) else KeyResponse(false, false)
  }

  /** All inputs of the nodes, node by node and in each node's order. */
  function InputsOf(nodes: seq<NodeState>): (r: seq<InputState>)
    reads (set n | n in nodes)`inputs
    ensures forall n, i :: n in nodes && i in n.inputs ==> i in r
    ensures forall i :: i in r ==> exists n :: n in nodes && i in n.inputs
  {
    if nodes == [] then [] else nodes[0].inputs + InputsOf(nodes[1..])
  }

  /** All outputs of the nodes, node by node and in each node's order. */
  function OutputsOf(nodes: seq<NodeState>): (r: seq<OutputState>)
    reads (set n | n in nodes)`outputs
    ensures forall n, o :: n in nodes && o in n.outputs ==> o in r
    ensures forall o :: o in r ==> exists n :: n in nodes && o in n.outputs
  {
    if nodes == [] then [] else nodes[0].outputs + OutputsOf(nodes[1..])
  }

  /** Every (output, target) pair, output by output and in each output's target order. */
  function Connections(outs: seq<OutputState>): (r: seq<(OutputState, InputState)>)
    reads (set o | o in outs)`targets
    ensures forall o, t :: o in outs && t in o.targets ==> (o, t) in r
    ensures forall p :: p in r ==> p.0 in outs && p.1 in p.0.targets
  {
    if outs == [] then [] else PairsWith(outs[0], outs[0].targets) + Connections(outs[1..])
  }

  /** The pairs of a list of outputs are those of its parts, in the same order. */
  lemma {:induction false} ConnectionsAppend(a: seq<OutputState>, b: seq<OutputState>)
    ensures Connections(a + b) == Connections(a) + Connections(b)
  {
    if a == [] {
      assert a + b == b;
    } else {
      assert (a + b)[0] == a[0];
      assert (a + b)[1..] == a[1..] + b;
      ConnectionsAppend(a[1..], b);
      assert Connections(a + b) == PairsWith(a[0], a[0].targets) + Connections(a[1..] + b);
    }
  }

  /** One output contributes one pair per entry of its targets, duplicates included. */
  lemma ConnectionsOfOne(o: OutputState)
    ensures Connections([o]) == PairsWith(o, o.targets)
  {
    assert [o][1..] == [];
  }

  function PairsWith(o: OutputState, ts: seq<InputState>): (r: seq<(OutputState, InputState)>)
    ensures |r| == |ts|
    ensures forall k :: 0 <= k < |ts| ==> r[k] == (o, ts[k])
  {
    seq(|ts|, k requires 0 <= k < |ts| => (o, ts[k]))
  }

  /** The connections that are drawn: those whose two anchors are both measured, in order. */
  function DrawnConnections(pairs: seq<(OutputState, InputState)>): (r: seq<(OutputState, InputState)>)
    reads (set p | p in pairs :: p.0)`anchor, (set p | p in pairs :: p.1)`anchor
    ensures forall p :: p in r ==> p in pairs && p.0.anchor.Some? && p.1.anchor.Some?
    ensures forall p :: p in pairs && p.0.anchor.Some? && p.1.anchor.Some? ==> p in r
  {
    if pairs == [] then []
    else if pairs[0].0.anchor.Some? && pairs[0].1.anchor.Some? then [pairs[0]] + DrawnConnections(pairs[1..])
    else DrawnConnections(pairs[1..])
  }

  /** Drawing keeps the order of the pairs: filtering a concatenation is concatenating the filtered parts. */
  lemma {:induction false} DrawnConnectionsAppend(a: seq<(OutputState, InputState)>, b: seq<(OutputState, InputState)>)
    ensures DrawnConnections(a + b) == DrawnConnections(a) + DrawnConnections(b)
  {
    if a == [] {
      assert a + b == b;
    } else {
      assert (a + b)[0] == a[0];
      assert (a + b)[1..] == a[1..] + b;
      DrawnConnectionsAppend(a[1..], b);
    }
  }
}
