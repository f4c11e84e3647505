# Node graph editor: a Dafny model of its connection protocol

The application is a desktop node-graph editor. A canvas shows nodes. Each
node has ordered input and output sockets, and every socket carries an
integer type tag. The user links an output to inputs by dragging a
connection from one socket to another.

Each input is linked to at most one output, through its `source` field. Each
output keeps the list of inputs it feeds, in its `targets` field. These are
plain object references in both directions.

This project models:

- the drag callbacks that create, detach and commit those links;
- the socket and node objects they work on, including the node's cached
  pixel offset;
- the viewport's pan and zoom;
- the JSON normalisers and field defaults of the node catalog entry;
- the integer and dropdown editor rules;
- the connector colour lookup.

Modules, one per file:

- `Wrappers` (`wrappers.dfy`): `Option` and `Result`. They stand for a
  nullable value, and for a computation that throws.
- `Geometry` (`geometry.dfy`): offsets over reals; dp to px as
  multiplication by a positive density; the snapping radius; the anchor
  formula.
- `IntText` (`int_text.dfy`): the 32-bit `Int`, `toString`, `toIntOrNull`
  in radix 10, and `isBlank`.
- `ColorScheme` (`color_scheme.dfy`): the colour for a socket type id,
  using Kotlin's truncating `%`.
- `InputWidget` (`input_widget.dfy`): the editor state classes, the
  integer field's edit rule, and the dropdown's selection and popup.
- `NodeModel` (`node_model.dfy`), a mix of classes and pure functions:
  - classes `NodeState`, `InputState` and `OutputState`, with the pixel
    offset cache and the anchor setter;
  - the first-occurrence `remove`;
  - the split of inputs into socket rows and editor rows;
  - the editor dispatch and the Delete key;
  - the enumeration of connections.
- `GraphEditor` (`graph_editor.dfy`):
  - the `Workspace` class holds the node list, with ghost sets of its nodes
    and sockets, and the three link operations: detach, connect and relink.
  - the `Graph` class is the editor itself: density, zoom scale and pan
    offset. It has the drag callbacks, both as written and as evidently
    intended.
  - the link-agreement lemmas are stated over two maps: each input's source
    and each output's targets.
- `Catalog` (`node_info.dfy`): a JSON datatype, the two `transformDeserialize`
  normalisers, and decoders for `NodeInfo`, `NodeInfoInput` and
  `NodeInfoInputOrder` with their defaults.
- `Demo` (`demo.dfy`): the application's start-up graph, and the drops the
  drag-end scan decides on it.

Links satisfy `Consistent` when the two directions agree:

- every connected input is listed by its source;
- every listed target names that output as its source;
- no output lists an input twice.

Every drag callback keeps `Consistent`, with one exception. A drop onto an
input that is already connected breaks it (see Findings). The drop as
evidently intended keeps it on every call.

In these places the code behaves differently from what a reader of the
editor might expect, and the model follows the code:

- **Drop test order.** The drop takes the first input within the snapping
  radius, and only then compares types. A mismatch on that first input
  connects nothing, even when a later input would match.
- **A failed drop keeps the drag.** Reading an unmeasured anchor (`!!`)
  throws. On drag end this skips the line that clears the drag, so the
  callback hands back the drag unchanged (`NullAnchor`). On drag start from a
  connected input, the detach has already happened when the throw comes.
- **An existing link is not detached on drop.** The commit appends to the
  source's targets whether or not the target already had a source.
- **Scroll.** The editor (`Graph.kt`) has no early return. The earlier copy
  in `Main.kt` returns early when the clamped scale is unchanged. Both leave
  the same scale.

Two sets of files are earlier copies of the same behaviour:

- `ConnectorState.kt` and `NodeState.kt` repeat `Connector.kt` and `Node.kt`.
  `NodeState.kt:10-20` and `NodeState.kt:24-37` initialise a node and fill its
  px cache as `Node.kt:31-41` and `Node.kt:45-58` do. `ConnectorState.kt:17-23`
  and `ConnectorState.kt:25-31` start an input and an output as
  `Connector.kt:32-41` and `Connector.kt:43-49` do (the earlier input has no
  widget).
- `Main.kt:239-266` and `Main.kt:267-283` repeat the drag callbacks of
  `Graph.kt:156-183` and `Graph.kt:184-201`: the same three drag cases, the
  same scan, type test, commit and clear, and the same failure on an
  unmeasured anchor. `Main.kt:116-118` adds the drag delta to its offset
  cell, which is what `Graph.kt:46` reports to its caller.

Each is modelled once, and the rows below cite the editor's copy.

## Model

| member | source | states |
|---|---|---|
| GraphEditor.ClampScale | src/main/kotlin/Graph.kt:49 | The zoom scale is `max(0.1, min(3, s))`. It always lies in [0.1, 3], is `s` itself inside that range, and is the nearer bound outside it. |
| GraphEditor.Graph.Scroll | src/main/kotlin/Graph.kt:48-51 | Scroll sets the scale to the clamp of the old scale plus a tenth of the wheel delta, so the scale stays within [0.1, 3]. |
| GraphEditor.Graph.Pan | src/main/kotlin/Graph.kt:45-47 | Pan moves the viewport offset by exactly the drag delta, with no clamp, which is the value Graph.kt:46 reports to its caller. |
| GraphEditor.Graph.constructor | src/main/kotlin/Graph.kt:35-41 | A fresh editor starts at scale 1, with the pan offset at zero as the caller's cell starts (Main.kt:102). It works over a workspace whose sockets all belong to its nodes, whose links stay inside it and whose px caches agree with the density. |
| GraphEditor.Graph.OnConnectorDrag | src/main/kotlin/Graph.kt:156-183 | With a drag active, only the free end moves by the delta and no link changes. From an output, a drag starts at the output's px anchor plus the delta, with no link changed. From a connected input, the input is detached by clearing its source and removing its first occurrence from that source's targets, and the drag starts from that former source at the input's anchor plus the delta. An unconnected input changes nothing and leaves no drag. An unmeasured anchor is a `NullAnchor` failure that leaves the drag cell as it was. Link agreement and type agreement are kept. |
| GraphEditor.Graph.DragFromOutput | src/main/kotlin/Graph.kt:172-175 | Succeeds exactly when the output's anchor is measured. The drag then starts at its node's px offset plus the anchor plus the delta. Otherwise it fails and leaves no drag. |
| GraphEditor.Graph.DetachAndDrag | src/main/kotlin/Graph.kt:160-170 | The input's source becomes null and that source's targets lose their first occurrence of the input. The drag restarts from the former source exactly when the input's anchor is measured; the detach happens either way. |
| GraphEditor.Graph.DragFromInput | src/main/kotlin/Graph.kt:166-169 | Succeeds exactly when the input's anchor is measured. The drag then restarts from the given source at the input's node px offset plus the anchor plus the delta. Otherwise it fails and leaves no drag. The graph's sockets and links stay unchanged. |
| GraphEditor.FirstHit | src/main/kotlin/Graph.kt:188-191 | The scan result is the first probe that is unmeasured or within the radius. Every probe before it was measured and outside the radius. |
| GraphEditor.Probes | src/main/kotlin/Graph.kt:189 | Each input's probe is its node's px offset plus its anchor, or unmeasured. The probes come in the inputs' order. |
| GraphEditor.Graph.ScanForTarget | src/main/kotlin/Graph.kt:185-191 | The loop over all inputs, in node order and then input order, returns `FirstHit` of their probes at the drop point with radius²=(5d)²+(5d)². It changes only the px caches. |
| GraphEditor.Graph.OnDragEnd | src/main/kotlin/Graph.kt:184-201 | With no drag, nothing changes, not even a px cache. Otherwise an input is connected if and only if the scan hits it and its type equals the source's type. The input's source is set, and the input is appended to the source's targets. Then the drag is cleared. An unmeasured anchor met by the scan is a failure that keeps the drag. Types stay in agreement. Link agreement is kept when the connected input had no source before. |
| GraphEditor.Graph.Drop | src/main/kotlin/Graph.kt:194-197 | The commit connects the hit input if and only if its type equals the source's. The link maps change exactly at that input and at the source. |
| GraphEditor.Workspace.DetachInput | src/main/kotlin/Graph.kt:164-165 | The input's source becomes null, and the first occurrence of the input leaves its source's targets. Nothing else changes. Link agreement and type agreement are kept. |
| GraphEditor.Workspace.Connect | src/main/kotlin/Graph.kt:195-196 | The input's source becomes the output, and the output's targets gain the input at the end. Agreement is kept when the input had no source. Types agree when the two socket types are equal. |
| GraphEditor.Workspace.PxOffsetOf | src/main/kotlin/Graph.kt:168 | A node's px offset read during a callback is its position times the density. Only the cache changes. |
| GraphEditor.Workspace.InputsOfWorkspace | src/main/kotlin/Graph.kt:188 | The flattened input list the scan visits holds only inputs of the workspace. |
| GraphEditor.Workspace.constructor | src/main/kotlin/Main.kt:41 | The node list starts empty, with no links. |
| GraphEditor.Workspace.AddNode | src/main/kotlin/Main.kt:43-92 | Adding a fresh node appends it to the list. Its inputs enter the link maps unconnected, and its outputs enter them with no targets. Link agreement, type agreement and the px caches are kept. |
| GraphEditor.AddUnconnectedKeepsLinks | src/main/kotlin/Main.kt:55 | Adding unconnected sockets that are new to the graph keeps link agreement and type agreement. |
| GraphEditor.DetachKeepsLinks | src/main/kotlin/Graph.kt:164-165 | Clearing a connected input's source and removing it from its source's targets keeps the two directions in agreement. |
| GraphEditor.ConnectKeepsLinks | src/main/kotlin/Graph.kt:195-196 | Connecting an input that has no source keeps the two directions in agreement. |
| GraphEditor.ConnectingConnectedInputBreaksLinks | src/main/kotlin/Graph.kt:194-196 | Connecting an input that already has a source, without detaching it, always breaks agreement. Either the former source still lists it, or the same output lists it twice. |
| GraphEditor.RelinkKeepsLinks | src/main/kotlin/Graph.kt:194-196 | Detaching a connected input and then connecting it to any output keeps agreement. |
| GraphEditor.Workspace.Relink | src/main/kotlin/Graph.kt:194-196 | The corrected commit sets the input's source to the output. The former source, if any, loses its first occurrence of the input. The output's targets gain the input. Agreement is kept on every call. |
| GraphEditor.Graph.DropRelinking | src/main/kotlin/Graph.kt:194-197 | The corrected commit: the same type test, with the maps updated as `Relink` states and agreement always kept. |
| GraphEditor.Graph.OnDragEndRelinking | src/main/kotlin/Graph.kt:184-201 | The drop as evidently intended: the same scan, type test and clear as `OnDragEnd`, nothing changed without a drag, and link agreement kept on every drop. |
| NodeModel.NodeState.constructor | src/main/kotlin/Node.kt:31-41 | Title, position, inputs and outputs come from the arguments in their order. The px cache starts empty. |
| NodeModel.NodeState.EmptyCacheAgrees | src/main/kotlin/Node.kt:43-44 | An empty cache is consistent with every density. |
| NodeModel.NodeState.GetPxOffset | src/main/kotlin/Node.kt:45-58 | After the call, the cache holds the result, keyed by the current position. A cache filled for the current position is returned untouched, whatever the density. Otherwise the result is recomputed as position × density. A cache filled at this density always gives position × density. |
| NodeModel.NodeState.Drag | src/main/kotlin/Node.kt:86-91 | Dragging a node adds the px delta, converted to dp, to its position. In px the node moves by exactly the delta. |
| NodeModel.NodeState.AddInput | src/main/kotlin/Main.kt:70 | `inputs.add` appends the input at the end. |
| NodeModel.NodeState.AddOutput | src/main/kotlin/Main.kt:54 | `outputs.add` appends the output at the end. |
| NodeModel.InputState.constructor | src/main/kotlin/Connector.kt:32-41 | A new input has the given parent, label, type and widget. It has no source and no anchor. |
| NodeModel.InputState.WithoutWidget | src/main/kotlin/ConnectorState.kt:17-23 | An input of the earlier socket model (no widget) has no source and no anchor, and keeps its parent, label and type. |
| NodeModel.OutputState.constructor | src/main/kotlin/Connector.kt:43-49 | A new output has the given parent, label and type, no targets and no anchor. |
| NodeModel.InputState.OnPointPositioned | src/main/kotlin/Node.kt:164 | The stored anchor is (measured − node root) / scale. An unmeasured node root throws and leaves the anchor as it was. |
| NodeModel.InputState.EditorEnabled | src/main/kotlin/Connector.kt:94 | An input's editor is enabled exactly when the input has no source. |
| NodeModel.OutputState.OnPointPositioned | src/main/kotlin/Node.kt:141 | The stored anchor is (measured − node root) / scale. An unmeasured node root throws and leaves the anchor as it was. |
| NodeModel.RemoveFirst | src/main/kotlin/Graph.kt:165 | `remove` deletes exactly one occurrence, when there is one. The multiset loses one copy of the element, and nothing else is lost or gained. |
| NodeModel.RemoveFirstFirstOccurrence | src/main/kotlin/Graph.kt:165 | When the element occurs, `remove` deletes it at an index before which it does not occur, namely its first occurrence, and keeps everything before and after that index in order. |
| NodeModel.RemoveFirstNoDuplicates | src/main/kotlin/Graph.kt:165 | From a list without duplicates, `remove` leaves no occurrence of the element and no duplicate. |
| NodeModel.InputsWithoutWidget | src/main/kotlin/Node.kt:124 | The socket rows hold exactly the inputs without an editor, in their order. |
| NodeModel.WidgetInputs | src/main/kotlin/Node.kt:159 | The editor rows hold exactly the inputs with an editor, in their order. |
| NodeModel.InputsPartition | src/main/kotlin/Node.kt:124-159 | The two row lists interleave back into the node's inputs, each keeping its order, and their sizes add up. |
| NodeModel.RowCount | src/main/kotlin/Node.kt:124-126 | A node's row count is the larger of the number of its inputs without an editor and the number of its outputs: at least each of the two, and equal to one of them. |
| NodeModel.WidgetEditor | src/main/kotlin/Connector.kt:94-127 | An editor row without a widget throws. Otherwise the editor kind follows the widget kind, and it is enabled if and only if the input has no source. Every kind but the text editor shows the input's label. |
| NodeModel.OnKeyEvent | src/main/kotlin/Node.kt:98-104 | The Delete key is always consumed, and asks for deletion only on key-down. Other keys are not consumed. |
| NodeModel.InputsOf | src/main/kotlin/Graph.kt:188 | The flattened input list holds every input of every node and nothing else. |
| NodeModel.OutputsOf | src/main/kotlin/Main.kt:176-177 | The flattened output list holds every output of every node and nothing else. |
| NodeModel.Connections | src/main/kotlin/Main.kt:176-180 | The connection pairs are exactly the (output, target) pairs over all outputs. |
| NodeModel.PairsWith | src/main/kotlin/Main.kt:178 | One output paired with each of its targets, in order. |
| NodeModel.ConnectionsAppend | src/main/kotlin/Main.kt:176-180 | The pairs of a concatenation of output lists are the pairs of the first list followed by those of the second, so the pairs keep the outputs' order. |
| NodeModel.ConnectionsOfOne | src/main/kotlin/Main.kt:177-179 | One output contributes one pair per entry of its targets, in order, so a duplicated target gives a duplicated pair. |
| NodeModel.DrawnConnections | src/main/kotlin/Main.kt:180-184 | The drawn connections are exactly the pairs whose two anchors are measured. |
| NodeModel.DrawnConnectionsAppend | src/main/kotlin/Main.kt:180-184 | Filtering a concatenation of pair lists gives the filtered parts concatenated, so the drawn connections keep their order and multiplicity. |
| Geometry.DistanceSquared | src/main/kotlin/Graph.kt:189-190 | A squared distance is never negative. |
| Geometry.SnapRadiusSquared | src/main/kotlin/Graph.kt:185 | The snapping threshold is the squared length of (5 dp, 5 dp) in px, that is 50·d². |
| Geometry.ToPx | src/main/kotlin/Node.kt:48-52 | A dp position in px is each coordinate times the density. |
| Geometry.ToDp | src/main/kotlin/Node.kt:87-90 | A px displacement in dp is each coordinate divided by the density. |
| Geometry.AnchorFromMeasurement | src/main/kotlin/Node.kt:141 | The stored anchor is the measured position minus the node root, divided by the scale. Inputs with an editor use the same formula at Node.kt:164. |
| Geometry.ToPxToDp | src/main/kotlin/Node.kt:86-91 | Converting a px delta to dp and back gives it back. |
| Geometry.AnchorFromMeasurementInverse | src/main/kotlin/Node.kt:141 | Scaling a stored anchor and adding the node root gives back the measured position. |
| Geometry.AnchorFromMeasurementUnique | src/main/kotlin/Node.kt:164 | The stored anchor is the only offset with that property. |
| IntText.ParseIntToString | src/main/kotlin/InputWidget.kt:95 | The text an `Int` is rendered to parses back to that `Int`. |
| IntText.IntToStringNotBlank | src/main/kotlin/InputWidget.kt:95 | The rendered text of an `Int` is never blank. |
| IntText.BlankDoesNotParse | src/main/kotlin/InputWidget.kt:100-105 | Blank text never parses as a number. |
| IntText.ParseDigits | src/main/kotlin/InputWidget.kt:105 | A digit string is accepted only when its value fits the bound. |
| IntText.ParseInt | src/main/kotlin/InputWidget.kt:105 | `toIntOrNull` gives a number if and only if the text is an optional `-` or `+` followed by one or more ASCII digits and the number it denotes fits in an `Int`. That number is the result. |
| IntText.IntToString | src/main/kotlin/InputWidget.kt:95 | The text of an `Int` is a signed decimal text that denotes it. It starts with `-` exactly for a negative number and never starts with `+`. |
| IntText.IsWhitespace | src/main/kotlin/InputWidget.kt:100 | A whitespace character is tab to carriage return, FS to US, the space, or one of the Unicode space, line and paragraph separators. |
| IntText.IsBlank | src/main/kotlin/InputWidget.kt:100 | A text is blank when it is empty or every character is whitespace. |
| ColorScheme.TruncatedRem | src/main/kotlin/ColorScheme.kt:12 | Kotlin's `%` takes the dividend's sign: it lies in [0, b) for a non-negative dividend and in (−b, 0] for a negative one. |
| ColorScheme.TruncatedRemNonNegative | src/main/kotlin/ColorScheme.kt:12 | On a non-negative dividend Kotlin's `%` is the ordinary remainder. |
| ColorScheme.TruncatedRemNegated | src/main/kotlin/ColorScheme.kt:12 | Negating the dividend negates Kotlin's remainder, which fixes its value on negative dividends. |
| ColorScheme.ForId | src/main/kotlin/ColorScheme.kt:12 | The colour is the list entry at `id % 4`. The lookup fails (index out of bounds) exactly for negative ids that are not multiples of four. |
| ColorScheme.ForIdFirstFour | src/main/kotlin/ColorScheme.kt:5-12 | Ids 0 to 3 select primary, secondary, tertiary and error, in that order. |
| ColorScheme.ForIdPeriodic | src/main/kotlin/ColorScheme.kt:12 | For non-negative ids the colour exists and repeats with period four. |
| ColorScheme.ForIdNegative | src/main/kotlin/ColorScheme.kt:12 | A negative id that is not a multiple of four has no colour. |
| InputWidget.TextWidgetState.constructor | src/main/kotlin/InputWidget.kt:32 | The text editor starts with empty text. |
| InputWidget.TextWidgetState.OnValueChange | src/main/kotlin/InputWidget.kt:65 | The text editor takes the new text as it is. |
| InputWidget.IntWidgetState.constructor | src/main/kotlin/InputWidget.kt:38 | The integer editor starts at 0. |
| InputWidget.FloatWidgetState.constructor | src/main/kotlin/InputWidget.kt:44 | The float editor starts at 0. |
| InputWidget.DropdownWidgetState.constructor | src/main/kotlin/InputWidget.kt:47-50 | The dropdown keeps its options and starts at index 0. |
| InputWidget.DropdownWidgetState.Selected | src/main/kotlin/InputWidget.kt:52-53 | `selected` is defined exactly when the index is within the options, and is then the option at that index. |
| InputWidget.IntField.constructor | src/main/kotlin/InputWidget.kt:95 | The field starts by showing the value's text, and the text and the value agree. |
| InputWidget.IntField.OnValueChange | src/main/kotlin/InputWidget.kt:99-111 | Blank text sets the value to 0 and clears the text. Text that parses as an `Int` becomes both the value and the shown text. Any other text changes neither. The text and the value stay in agreement. |
| InputWidget.DropdownField.constructor | src/main/kotlin/InputWidget.kt:201 | The popup starts closed. |
| InputWidget.DropdownField.Click | src/main/kotlin/InputWidget.kt:208-216 | A click opens the popup only when the editor is enabled. Otherwise nothing changes. |
| InputWidget.DropdownField.FocusChanged | src/main/kotlin/InputWidget.kt:208-216 | A focus change opens or closes the popup only when the editor is enabled. Otherwise nothing changes. |
| InputWidget.DropdownField.ChooseOption | src/main/kotlin/InputWidget.kt:264-267 | Choosing option `idx` selects it, so `selected` is that option, and closes the popup. |
| Catalog.Wrap | src/main/kotlin/NodeInfo.kt:34 | An array is kept as it is. Any other element `x` becomes `[x]`. The result is always an array. |
| Catalog.WrapAll | src/main/kotlin/NodeInfo.kt:33-35 | The map keeps the length, and wraps each element at its own position. |
| Catalog.NormalizeOutput | src/main/kotlin/NodeInfo.kt:30-37 | It fails (a cast failure) if and only if the element is not an array. Otherwise it keeps the length and order, every item becomes an array, arrays are unchanged and any other item `x` becomes `[x]`. |
| Catalog.WrapAllIdempotent | src/main/kotlin/NodeInfo.kt:34 | Wrapping a wrapped list changes nothing. |
| Catalog.NormalizeOutputIdempotent | src/main/kotlin/NodeInfo.kt:31-36 | Normalising a normalised output list gives the same list. |
| Catalog.Keys | src/main/kotlin/NodeInfo.kt:54 | The keys of an object, in order. |
| Catalog.WrapValues | src/main/kotlin/NodeInfo.kt:54-57 | Each property keeps its key and position, and its value is wrapped. |
| Catalog.NormalizeInputs | src/main/kotlin/NodeInfo.kt:49-59 | It fails if and only if the element is not an object. Otherwise it keeps the keys and their order, every value becomes an array, array values are unchanged and any other value becomes a one-element array. |
| Catalog.WrapValuesIdempotent | src/main/kotlin/NodeInfo.kt:55-56 | Wrapping wrapped values changes nothing. |
| Catalog.NormalizeInputsIdempotent | src/main/kotlin/NodeInfo.kt:52-58 | Normalising a normalised input map gives the same map. |
| Catalog.Lookup | src/main/kotlin/NodeInfo.kt:11-27 | A field is found if and only if its key is present, and then it is one of the object's properties. |
| Catalog.ArrayValues | src/main/kotlin/NodeInfo.kt:42 | A property list whose values are all arrays reads as a map from names to element lists, in order. |
| Catalog.DecodeInputMap | src/main/kotlin/NodeInfo.kt:41-46 | An input map field decodes exactly when it is an object. Each name keeps its position, and each value is its wrapped array's elements. |
| Catalog.Defaulted | src/main/kotlin/NodeInfo.kt:24-27 | An absent field with a default takes the default. A present one is decoded. |
| Catalog.Required | src/main/kotlin/NodeInfo.kt:12-23 | An absent field without a default is a failure naming its key. A present one is decoded. |
| Catalog.DecodeNodeInfoInput | src/main/kotlin/NodeInfo.kt:39-47 | Decoding succeeds if and only if the element is an object whose `required` is present and decodes as an input map, and whose `optional` and `hidden` are absent or decode. `required` holds its decoded map. A present `optional` or `hidden` holds its decoded map, and an absent one is the empty map. |
| Catalog.DecodeInputOrder | src/main/kotlin/NodeInfo.kt:61-66 | Decoding succeeds if and only if the element is an object whose `required` is present and decodes as a string list, and whose `optional` and `hidden` are absent or decode. `required` holds its decoded list. A present `optional` or `hidden` holds its decoded list, and an absent one is the empty list. |
| Catalog.DecodeString | src/main/kotlin/NodeInfo.kt:18 | A string field decodes exactly from a JSON string. |
| Catalog.DecodeBool | src/main/kotlin/NodeInfo.kt:23 | A boolean field decodes exactly from a JSON boolean. |
| Catalog.Strings | src/main/kotlin/NodeInfo.kt:17 | A list of JSON strings reads as its strings, in order, and fails on any other element. |
| Catalog.Bools | src/main/kotlin/NodeInfo.kt:16 | A list of JSON booleans reads as its booleans, in order, and fails on any other element. |
| Catalog.DecodeStringList | src/main/kotlin/NodeInfo.kt:17 | A string list decodes exactly from an array of strings. |
| Catalog.DecodeBoolList | src/main/kotlin/NodeInfo.kt:16 | A boolean list decodes exactly from an array of booleans. |
| Catalog.StringLists | src/main/kotlin/NodeInfo.kt:15 | The list decodes if and only if every element decodes as a string list, and then each element gives the string list at its own position. |
| Catalog.DecodeOutput | src/main/kotlin/NodeInfo.kt:14-15 | `output` must be an array. An array decodes if and only if every element, after wrapping, decodes as a string list, and each then gives the string list at its position. |
| Catalog.DecodePorts | src/main/kotlin/NodeInfo.kt:12-17 | The socket fields `input`, `inputOrder`, `output`, `outputIsList` and `outputName` decode if and only if each is present and decodes, and each then holds its decoded value. A missing `input` fails naming that key. |
| Catalog.DecodeLabels | src/main/kotlin/NodeInfo.kt:18-23 | The fields `name`, `displayName`, `description`, `pythonModule`, `category` and `outputNode` decode if and only if each is present and decodes, and each then holds its decoded value. |
| Catalog.DecodeExtras | src/main/kotlin/NodeInfo.kt:24-27 | The fields with a default decode if and only if each is absent or decodes. An absent `outputTooltips` is empty and absent `experimental`, `deprecated` and `apiNode` are false. A present one holds its decoded value. |
| Catalog.MissingRequiredKey | src/main/kotlin/NodeInfo.kt:11-23 | An entry that lacks any of the eleven fields without a default does not have all of them decodable. |
| Catalog.RequiredDecodes | src/main/kotlin/NodeInfo.kt:12-23 | A field without a default decodes exactly when it is present and its value decodes, and it then holds that value. |
| Catalog.DefaultedDecodes | src/main/kotlin/NodeInfo.kt:24-27 | A field with a default decodes exactly when it is absent or its value decodes. A present field then holds its decoded value. |
| Catalog.DecodeNodeInfo | src/main/kotlin/NodeInfo.kt:10-28 | A catalog entry decodes if and only if it is an object whose eleven fields without a default are present and decode, and whose four fields with a default are absent or decode. A missing field without a default fails, and a missing `input` fails naming that key. On success each field holds its decoded value, `output` is the normalised list, and an absent `outputTooltips` is empty while absent `experimental`, `deprecated` and `apiNode` are false. |
| Demo.DemoValues | src/main/kotlin/Main.kt:43-92 | At density 1, with anchors at their nodes' origins, the scan sees Input at (200, 200) and Input2 at (100, 300), and the radius² is 50. |
| Demo.OutputOntoInputConnects | src/main/kotlin/Main.kt:48-70 | A drag from Output (type 1) released on Input (type 1) hits Input first, and the types agree, so they are connected. |
| Demo.OutputOntoInput2Refused | src/main/kotlin/Main.kt:48-91 | A drag from Output (type 1) released on Input2 passes Input, hits Input2 (type 2), and the types differ, so nothing is connected. |
| Demo.Output2OntoInput2Connects | src/main/kotlin/Main.kt:71-91 | A drag from Output2 (type 2) released on Input2 (type 2) hits Input2, and the types agree. |
| Demo.SnappingRadius | src/main/kotlin/Main.kt:268-274 | A release at squared distance 25 from Input snaps to it. One at squared distance 64 from Input, and far from Input2, hits nothing. |

## Left out

- Rendering is not modelled: the grid, the Bézier connection paths, the circles, the colours as pixels and `drawWithCache`. Only the choice of which connections are drawn is kept (`DrawnConnections`).
- Compose layout and measurement are parameters. `OnPointPositioned` receives the measured position and the node root, which may be missing. Focus, interaction sources and popup placement are left out.
- Floating point is replaced by reals. The float editor's edit rule (`toFloatOrNull`) and the rounding of scale and offsets are left out.
- The dead centering computation in the earlier zoom handler is left out, because its result is never applied.
- Node deletion is not modelled. `Node` only forwards the Delete key to a callback that the caller supplies. Nothing in these sources clears the dangling `source` and `targets` references, so the model claims nothing about it.
- GraphEditor.Graph.OnConnectorDrag: the drag cell is passed in and handed back as a value, not kept in a field of the editor. An unmeasured anchor leaves the cell as it was, and the callback's result is the cell's new value.
- GraphEditor.Graph.Pan / GraphEditor.Graph.constructor: the editor receives `viewportOffset` from its caller and only reports `viewportOffset + offset` through `viewportOffsetChange` (Graph.kt:28, Graph.kt:46). The model stores the offset in the editor, as Main.kt:102 and Main.kt:117 store it, and so assumes the caller stores what `viewportOffsetChange` reports. The zero start is the caller's initial value.
- The earlier copy creates its drag cell without `remember`, so a recomposition loses the drag. That copy also builds and adds the demo nodes on every recomposition. Neither is modelled.
- Demo: the demo graph is checked on the values the drop scan reads: the probes, the radius and the socket types. The workspace operations are not replayed object by object, because that replay is too costly for the verifier.
- GraphEditor.Workspace.AddNode: it requires a node fresh from its template, with its sockets its own, unconnected, and its cache empty. Adding an arbitrary node is not modelled.
- Catalog.DecodeNodeInfo: keys the entry does not declare are ignored. The `Json` instance that decodes the catalog is not part of these sources, so its handling of unknown keys, lenient literals and coercion is not modelled.
- Catalog: a JSON object is a list of properties, and `Lookup` takes the first property with a key. Objects with a repeated key are not modelled.
- Catalog: `NodeInfoInput` maps keep their values as JSON trees (`List<JsonElement>`). Their contents are not interpreted further.
- IntText: `toIntOrNull` is modelled for ASCII decimal digits. Other Unicode decimal digits are not modelled.
- InputWidget: the text shown when the float editor loses focus is not modelled, as it works on floats.

## Findings

| source | as written | input that shows it | evidently intended | confidence | as-written member | corrected member |
|---|---|---|---|---|---|---|
| src/main/kotlin/Graph.kt:194-196 | Drag end sets `target.source` and appends `target` to the source's targets without detaching the target from a source it already has. The same code is at src/main/kotlin/Main.kt:276-279. | Connect Output to Input. Then start a new drag on Output itself, which leaves the existing link in place, and release it on Input. Output's targets become `[Input, Input]`. With a second type-1 output, the former output would keep listing Input. | An input that is already connected is detached from its former source before the new link is made, so each input is listed exactly by its own source. | not executed | GraphEditor.ConnectingConnectedInputBreaksLinks | GraphEditor.Graph.OnDragEndRelinking |
