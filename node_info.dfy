/**
 * The node catalog entry (`NodeInfo`) and the two JSON transforms that run
 * before it is decoded: an output list whose elements may be bare values,
 * and input maps whose values may be bare values, are both normalised so
 * that every element, or every value, is a JSON array.
 */
module Catalog {
  import opened Wrappers

  /** A JSON tree. An object keeps its properties in order, each key once. */
  datatype Json =
    | JNull
    | JBool(b: bool)
    | JNumber(literal: string)
    | JString(s: string)
    | JArray(items: seq<Json>)
    | JObject(properties: seq<(string, Json)>)

  /** Why decoding fails: a cast that does not hold, a required key that is absent, a value of the wrong kind. */
  datatype DecodeError = NotAnArray | NotAnObject | MissingKey(key: string) | WrongKind(key: string)

  /** `it as? JsonArray ?: JsonArray(listOf(it))`: an array is kept, anything else becomes a one-element array. */
  function Wrap(e: Json): (r: Json)
    ensures r.JArray?
    ensures e.JArray? ==> r == e
    ensures !e.JArray? ==> r.items == [e]
  {
    if e.JArray? then e else JArray([e])
  }

  /** `map { wrap }` over a list of elements, in order. */
  function WrapAll(xs: seq<Json>): (r: seq<Json>)
    ensures |r| == |xs|
    ensures forall k :: 0 <= k < |xs| ==> r[k] == Wrap(xs[k])
  {
    if xs == [] then [] else [Wrap(xs[0])] + WrapAll(xs[1..])
  }

  /**
   * `NodeInfoOutputSerializer.transformDeserialize`: the element is cast to
   * an array (a failure otherwise) and every element of it is wrapped.
   */
  function NormalizeOutput(e: Json): (r: Result<Json, DecodeError>)
    ensures r.Failure? <==> !e.JArray?
    ensures r.Failure? ==> r.error == NotAnArray
    ensures r.Success? ==>
              && r.value.JArray?
              && |r.value.items| == |e.items|
              && forall k :: 0 <= k < |e.items| ==>
                   && r.value.items[k].JArray?
                   && (e.items[k].JArray? ==> r.value.items[k] == e.items[k])
                   && (!e.items[k].JArray? ==> r.value.items[k].items == [e.items[k]])
  {
    if e.JArray? then Success(JArray(WrapAll(e.items))) else Failure(NotAnArray)
  }

  /** The keys of a property list, in order. */
  function Keys(ps: seq<(string, Json)>): (r: seq<string>)
    ensures |r| == |ps|
    ensures forall k :: 0 <= k < |ps| ==> r[k] == ps[k].0
  {
    if ps == [] then [] else [ps[0].0] + Keys(ps[1..])
  }

  /** `map { property -> key to wrap(value) }`, in order. */
  function WrapValues(ps: seq<(string, Json)>): (r: seq<(string, Json)>)
    ensures |r| == |ps|
    ensures forall k :: 0 <= k < |ps| ==> r[k].0 == ps[k].0 && r[k].1 == Wrap(ps[k].1)
  {
    if ps == [] then [] else [(ps[0].0, Wrap(ps[0].1))] + WrapValues(ps[1..])
  }

  /**
   * `NodeInfoInputListSerializer.transformDeserialize`: the element is cast
   * to an object (a failure otherwise) and every property value that is not
   * an array is wrapped; the keys and their order are kept.
   */
  function NormalizeInputs(e: Json): (r: Result<Json, DecodeError>)
    ensures r.Failure? <==> !e.JObject?
    ensures r.Failure? ==> r.error == NotAnObject
    ensures r.Success? ==>
              && r.value.JObject?
              && Keys(r.value.properties) == Keys(e.properties)
              && forall k :: 0 <= k < |e.properties| ==>
                   && r.value.properties[k].1.JArray?
                   && (e.properties[k].1.JArray? ==> r.value.properties[k].1 == e.properties[k].1)
                   && (!e.properties[k].1.JArray? ==> r.value.properties[k].1.items == [e.properties[k].1])
  {
    if e.JObject? then Success(JObject(WrapValues(e.properties))) else Failure(NotAnObject)
  }

  /** Wrapping an already wrapped list changes nothing. */
  lemma {:induction false} WrapAllIdempotent(xs: seq<Json>)
    ensures WrapAll(WrapAll(xs)) == WrapAll(xs)
  {
    if xs != [] {
      WrapAllIdempotent(xs[1..]);
      assert WrapAll(xs)[1..] == WrapAll(xs[1..]);
    }
  }

  /** Normalising a normalised output changes nothing. */
  lemma NormalizeOutputIdempotent(e: Json)
    requires NormalizeOutput(e).Success?
    ensures NormalizeOutput(NormalizeOutput(e).value) == NormalizeOutput(e)
  {
    WrapAllIdempotent(e.items);
  }

  /** Wrapping the values of already wrapped properties changes nothing. */
  lemma {:induction false} WrapValuesIdempotent(ps: seq<(string, Json)>)
    ensures WrapValues(WrapValues(ps)) == WrapValues(ps)
  {
    if ps != [] {
      WrapValuesIdempotent(ps[1..]);
      assert WrapValues(ps)[1..] == WrapValues(ps[1..]);
    }
  }

  /** Normalising normalised input maps changes nothing. */
  lemma NormalizeInputsIdempotent(e: Json)
    requires NormalizeInputs(e).Success?
    ensures NormalizeInputs(NormalizeInputs(e).value) == NormalizeInputs(e)
  {
    WrapValuesIdempotent(e.properties);
  }

  /** The value of the first property named `key`, if any. */
  function Lookup(ps: seq<(string, Json)>, key: string): (r: Option<Json>)
    ensures r.None? <==> key !in Keys(ps)
    ensures r.Some? ==> exists k :: 0 <= k < |ps| && ps[k] == (key, r.value)
  {
    if ps == [] then None else if ps[0].0 == key then Some(ps[0].1) else Lookup(ps[1..], key)
  }

  /** The three input maps of a node type: name to its type descriptor list. */
  datatype NodeInfoInput = NodeInfoInput(
    required: seq<(string, seq<Json>)>,
    optional: seq<(string, seq<Json>)>,
    hidden: seq<(string, seq<Json>)>)

  /** The input names of a node type in display order. */
  datatype NodeInfoInputOrder = NodeInfoInputOrder(required: seq<string>, optional: seq<string>, hidden: seq<string>)

  /** A node type of the catalog. */
  datatype NodeInfo = NodeInfo(
    input: NodeInfoInput,
    inputOrder: NodeInfoInputOrder,
    output: seq<seq<string>>,
    outputIsList: seq<bool>,
    outputName: seq<string>,
    name: string,
    displayName: string,
    description: string,
    pythonModule: string,
    category: string,
    outputNode: bool,
    outputTooltips: seq<string>,
    experimental: bool,
    deprecated: bool,
    apiNode: bool)

  /** A normalised properties list, each value read as its array's elements. */
  function ArrayValues(ps: seq<(string, Json)>): (r: Option<seq<(string, seq<Json>)>>)
    ensures r.Some? <==> forall k :: 0 <= k < |ps| ==> ps[k].1.JArray?
    ensures r.Some? ==> |r.value| == |ps| && forall k :: 0 <= k < |ps| ==> r.value[k] == (ps[k].0, ps[k].1.items)
  {
    if ps == [] then Some([])
    else if !ps[0].1.JArray? then None
    else match ArrayValues(ps[1..])
      case None => None
      case Some(rest) => Some([(ps[0].0, ps[0].1.items)] + rest)
  }

  /** An input map field: normalised, then every value read as the elements of its array. */
  function DecodeInputMap(e: Json): (r: Result<seq<(string, seq<Json>)>, DecodeError>)
    ensures r.Failure? <==> !e.JObject?
    ensures r.Success? ==>
              && |r.value| == |e.properties|
              && forall k :: 0 <= k < |e.properties| ==>
                   && r.value[k].0 == e.properties[k].0
                   && r.value[k].1 == Wrap(e.properties[k].1).items
  {
    match NormalizeInputs(e)
    case Failure(err) => Failure(err)
    case Success(n) =>
      match ArrayValues(n.properties)
      case Some(vs) => Success(vs)
      case None => assert false; Failure(NotAnObject)
  }

  /** A field with a default: absent gives the default, present is decoded. */
  function Defaulted<T>(ps: seq<(string, Json)>, key: string, default: T, decode: Json -> Result<T, DecodeError>)
    : (r: Result<T, DecodeError>)
    ensures Lookup(ps, key).None? ==> r == Success(default)
    ensures Lookup(ps, key).Some? ==> r == decode(Lookup(ps, key).value)
  {
    match Lookup(ps, key)
    case None => Success(default)
    case Some(v) => decode(v)
  }

  /** A field without a default: absent is a failure naming the key. */
  function Required<T>(ps: seq<(string, Json)>, key: string, decode: Json -> Result<T, DecodeError>)
    : (r: Result<T, DecodeError>)
    ensures Lookup(ps, key).None? ==> r == Failure(MissingKey(key))
    ensures Lookup(ps, key).Some? ==> r == decode(Lookup(ps, key).value)
  {
    match Lookup(ps, key)
    case None => Failure(MissingKey(key))
    case Some(v) => decode(v)
  }

  /** `key` is present in `ps` and its value decodes to `value`. */
  predicate Decoded<T(==)>(ps: seq<(string, Json)>, key: string, decode: Json -> Result<T, DecodeError>, value: T)
  {
    Lookup(ps, key).Some? && decode(Lookup(ps, key).value) == Success(value)
  }

  /** `key` is present in `ps` and its value decodes. */
  predicate Decodes<T>(ps: seq<(string, Json)>, key: string, decode: Json -> Result<T, DecodeError>)
  {
    Lookup(ps, key).Some? && decode(Lookup(ps, key).value).Success?
  }

  /** `key` is absent from `ps`, or its value decodes. */
  predicate DecodesOrAbsent<T>(ps: seq<(string, Json)>, key: string, decode: Json -> Result<T, DecodeError>)
  {
    Lookup(ps, key).None? || decode(Lookup(ps, key).value).Success?
  }

  /** A required field decodes exactly when it is present and its value decodes. */
  lemma RequiredDecodes<T>(ps: seq<(string, Json)>, key: string, decode: Json -> Result<T, DecodeError>)
    ensures Required(ps, key, decode).Success? <==> Decodes(ps, key, decode)
    ensures Required(ps, key, decode).Success? ==> Decoded(ps, key, decode, Required(ps, key, decode).value)
  {
  }

  /** A field with a default decodes exactly when it is absent or its value decodes. */
  lemma DefaultedDecodes<T>(ps: seq<(string, Json)>, key: string, default: T, decode: Json -> Result<T, DecodeError>)
    ensures Defaulted(ps, key, default, decode).Success? <==> DecodesOrAbsent(ps, key, decode)
    ensures Defaulted(ps, key, default, decode).Success? && Lookup(ps, key).Some? ==>
              Decoded(ps, key, decode, Defaulted(ps, key, default, decode).value)
  {
  }

  /** `NodeInfoInput`: `required` must be present; `optional` and `hidden` default to empty maps. */
  function DecodeNodeInfoInput(e: Json): (r: Result<NodeInfoInput, DecodeError>)
    ensures !e.JObject? ==> r == Failure(NotAnObject)
    ensures e.JObject? && Lookup(e.properties, "required").None? ==> r == Failure(MissingKey("required"))
    ensures r.Success? <==>
              && e.JObject?
              && Decodes(e.properties, "required", DecodeInputMap)
              && DecodesOrAbsent(e.properties, "optional", DecodeInputMap)
              && DecodesOrAbsent(e.properties, "hidden", DecodeInputMap)
    ensures r.Success? ==> Decoded(e.properties, "required", DecodeInputMap, r.value.required)
    ensures r.Success? && Lookup(e.properties, "optional").None? ==> r.value.optional == []
    ensures r.Success? && Lookup(e.properties, "optional").Some? ==>
              Decoded(e.properties, "optional", DecodeInputMap, r.value.optional)
    ensures r.Success? && Lookup(e.properties, "hidden").None? ==> r.value.hidden == []
    ensures r.Success? && Lookup(e.properties, "hidden").Some? ==>
              Decoded(e.properties, "hidden", DecodeInputMap, r.value.hidden)
  {
    if !e.JObject? then Failure(NotAnObject)
    else
      var ps := e.properties;
      RequiredDecodes(ps, "required", DecodeInputMap);
      DefaultedDecodes(ps, "optional", [], DecodeInputMap);
      DefaultedDecodes(ps, "hidden", [], DecodeInputMap);
      match Required(ps, "required", DecodeInputMap)
      case Failure(err) => Failure(err)
      case Success(required) =>
        match Defaulted(ps, "optional", [], DecodeInputMap)
        case Failure(err) => Failure(err)
        case Success(optional) =>
          match Defaulted(ps, "hidden", [], DecodeInputMap)
          case Failure(err) => Failure(err)
          case Success(hidden) => Success(NodeInfoInput(required, optional, hidden))
  }

  /** A JSON string. */
  function DecodeString(e: Json): (r: Result<string, DecodeError>)
    ensures r.Success? <==> e.JString?
    ensures r.Success? ==> r.value == e.s
  {
    if e.JString? then Success(e.s) else Failure(WrongKind("string"))
  }

  /** A JSON boolean. */
  function DecodeBool(e: Json): (r: Result<bool, DecodeError>)
    ensures r.Success? <==> e.JBool?
    ensures r.Success? ==> r.value == e.b
  {
    if e.JBool? then Success(e.b) else Failure(WrongKind("boolean"))
  }

  /** A JSON array of strings. */
  function DecodeStringList(e: Json): (r: Result<seq<string>, DecodeError>)
    ensures r.Success? <==> e.JArray? && forall k :: 0 <= k < |e.items| ==> e.items[k].JString?
    ensures r.Success? ==> |r.value| == |e.items| && forall k :: 0 <= k < |e.items| ==> r.value[k] == e.items[k].s
  {
    if !e.JArray? then Failure(NotAnArray)
    else match Strings(e.items)
      case None => Failure(WrongKind("string"))
      case Some(ss) => Success(ss)
  }

  /** The strings of a list whose every element is a JSON string. */
  function Strings(xs: seq<Json>): (r: Option<seq<string>>)
    ensures r.Some? <==> forall k :: 0 <= k < |xs| ==> xs[k].JString?
    ensures r.Some? ==> |r.value| == |xs| && forall k :: 0 <= k < |xs| ==> r.value[k] == xs[k].s
  {
    if xs == [] then Some([])
    else if !xs[0].JString? then None
    else match Strings(xs[1..])
      case None => None
      case Some(rest) => Some([xs[0].s] + rest)
  }

  /** A JSON array of booleans. */
  function DecodeBoolList(e: Json): (r: Result<seq<bool>, DecodeError>)
    ensures r.Success? <==> e.JArray? && forall k :: 0 <= k < |e.items| ==> e.items[k].JBool?
    ensures r.Success? ==> |r.value| == |e.items| && forall k :: 0 <= k < |e.items| ==> r.value[k] == e.items[k].b
  {
    if !e.JArray? then Failure(NotAnArray)
    else match Bools(e.items)
      case None => Failure(WrongKind("boolean"))
      case Some(bs) => Success(bs)
  }

  /** The booleans of a list whose every element is a JSON boolean. */
  function Bools(xs: seq<Json>): (r: Option<seq<bool>>)
    ensures r.Some? <==> forall k :: 0 <= k < |xs| ==> xs[k].JBool?
    ensures r.Some? ==> |r.value| == |xs| && forall k :: 0 <= k < |xs| ==> r.value[k] == xs[k].b
  {
    if xs == [] then Some([])
    else if !xs[0].JBool? then None
    else match Bools(xs[1..])
      case None => None
      case Some(rest) => Some([xs[0].b] + rest)
  }

  /** `output`: normalised first, then read as a list of string lists. */
  function DecodeOutput(e: Json): (r: Result<seq<seq<string>>, DecodeError>)
    ensures !e.JArray? ==> r == Failure(NotAnArray)
    ensures e.JArray? ==> (r.Success? <==> forall k :: 0 <= k < |e.items| ==> DecodeStringList(Wrap(e.items[k])).Success?)
    ensures r.Success? ==>
              && |r.value| == |e.items|
              && forall k :: 0 <= k < |e.items| ==> DecodeStringList(Wrap(e.items[k])) == Success(r.value[k])
  {
    match NormalizeOutput(e)
    case Failure(err) => Failure(err)
    case Success(n) => StringLists(n.items)
  }

  /** Each element read as a list of strings; the first failure wins. */
  function StringLists(xs: seq<Json>): (r: Result<seq<seq<string>>, DecodeError>)
    ensures r.Success? <==> forall k :: 0 <= k < |xs| ==> DecodeStringList(xs[k]).Success?
    ensures r.Success? ==> |r.value| == |xs| && forall k :: 0 <= k < |xs| ==> DecodeStringList(xs[k]) == Success(r.value[k])
  {
    if xs == [] then Success([])
    else match DecodeStringList(xs[0])
      case Failure(err) => Failure(err)
      case Success(first) =>
        match StringLists(xs[1..])
        case Failure(err) => Failure(err)
        case Success(rest) => Success([first] + rest)
  }

  /** `NodeInfoInputOrder`: `required` must be present; `optional` and `hidden` default to empty lists. */
  function DecodeInputOrder(e: Json): (r: Result<NodeInfoInputOrder, DecodeError>)
    ensures !e.JObject? ==> r == Failure(NotAnObject)
    ensures e.JObject? && Lookup(e.properties, "required").None? ==> r == Failure(MissingKey("required"))
    ensures r.Success? <==>
              && e.JObject?
              && Decodes(e.properties, "required", DecodeStringList)
              && DecodesOrAbsent(e.properties, "optional", DecodeStringList)
              && DecodesOrAbsent(e.properties, "hidden", DecodeStringList)
    ensures r.Success? ==> Decoded(e.properties, "required", DecodeStringList, r.value.required)
    ensures r.Success? && Lookup(e.properties, "optional").None? ==> r.value.optional == []
    ensures r.Success? && Lookup(e.properties, "optional").Some? ==>
              Decoded(e.properties, "optional", DecodeStringList, r.value.optional)
    ensures r.Success? && Lookup(e.properties, "hidden").None? ==> r.value.hidden == []
    ensures r.Success? && Lookup(e.properties, "hidden").Some? ==>
              Decoded(e.properties, "hidden", DecodeStringList, r.value.hidden)
  {
    if !e.JObject? then Failure(NotAnObject)
    else
      var ps := e.properties;
      RequiredDecodes(ps, "required", DecodeStringList);
      DefaultedDecodes(ps, "optional", [], DecodeStringList);
      DefaultedDecodes(ps, "hidden", [], DecodeStringList);
      match Required(ps, "required", DecodeStringList)
      case Failure(err) => Failure(err)
      case Success(required) =>
        match Defaulted(ps, "optional", [], DecodeStringList)
        case Failure(err) => Failure(err)
        case Success(optional) =>
          match Defaulted(ps, "hidden", [], DecodeStringList)
          case Failure(err) => Failure(err)
          case Success(hidden) => Success(NodeInfoInputOrder(required, optional, hidden))
  }

  /** The keys of the `NodeInfo` fields that have no default. */
  const RequiredKeys: set<string> := {"input", "inputOrder", "output", "outputIsList", "outputName", "name",
                                      "displayName", "description", "pythonModule", "category", "outputNode"}

  /** The first five fields without a default: the sockets of the node type. */
  datatype Ports = Ports(
    input: NodeInfoInput, inputOrder: NodeInfoInputOrder, output: seq<seq<string>>, outputIsList: seq<bool>,
    outputName: seq<string>)

  /** The other six fields without a default: the names and flags of the node type. */
  datatype Labels = Labels(
    name: string, displayName: string, description: string, pythonModule: string, category: string,
    outputNode: bool)

  /** The four fields with a default. */
  datatype Extras = Extras(outputTooltips: seq<string>, experimental: bool, deprecated: bool, apiNode: bool)

  predicate PortsDecode(ps: seq<(string, Json)>)
  {
    && Decodes(ps, "input", DecodeNodeInfoInput)
    && Decodes(ps, "inputOrder", DecodeInputOrder)
    && Decodes(ps, "output", DecodeOutput)
    && Decodes(ps, "outputIsList", DecodeBoolList)
    && Decodes(ps, "outputName", DecodeStringList)
  }

  predicate LabelsDecode(ps: seq<(string, Json)>)
  {
    && Decodes(ps, "name", DecodeString)
    && Decodes(ps, "displayName", DecodeString)
    && Decodes(ps, "description", DecodeString)
    && Decodes(ps, "pythonModule", DecodeString)
    && Decodes(ps, "category", DecodeString)
    && Decodes(ps, "outputNode", DecodeBool)
  }

  /** Every field without a default is present and decodes. */
  predicate AllRequiredDecode(ps: seq<(string, Json)>)
  {
    PortsDecode(ps) && LabelsDecode(ps)
  }

  /** Every field with a default is absent or decodes. */
  predicate AllDefaultedDecode(ps: seq<(string, Json)>)
  {
    && DecodesOrAbsent(ps, "outputTooltips", DecodeStringList)
    && DecodesOrAbsent(ps, "experimental", DecodeBool)
    && DecodesOrAbsent(ps, "deprecated", DecodeBool)
    && DecodesOrAbsent(ps, "apiNode", DecodeBool)
  }

  /** An entry that lacks any field without a default does not decode. */
  lemma MissingRequiredKey(ps: seq<(string, Json)>)
    ensures forall k :: k in RequiredKeys && Lookup(ps, k).None? ==> !AllRequiredDecode(ps)
  {
  }

  /** The socket fields, each required, in declaration order. */
  function DecodePorts(ps: seq<(string, Json)>): (r: Result<Ports, DecodeError>)
    ensures r.Success? <==> PortsDecode(ps)
    ensures Lookup(ps, "input").None? ==> r == Failure(MissingKey("input"))
    ensures r.Success? ==>
              && Decoded(ps, "input", DecodeNodeInfoInput, r.value.input)
              && Decoded(ps, "inputOrder", DecodeInputOrder, r.value.inputOrder)
              && Decoded(ps, "output", DecodeOutput, r.value.output)
              && Decoded(ps, "outputIsList", DecodeBoolList, r.value.outputIsList)
              && Decoded(ps, "outputName", DecodeStringList, r.value.outputName)
  {
    RequiredDecodes(ps, "input", DecodeNodeInfoInput);
    RequiredDecodes(ps, "inputOrder", DecodeInputOrder);
    RequiredDecodes(ps, "output", DecodeOutput);
    RequiredDecodes(ps, "outputIsList", DecodeBoolList);
    RequiredDecodes(ps, "outputName", DecodeStringList);
    match Required(ps, "input", DecodeNodeInfoInput)
    case Failure(err) => Failure(err)
    case Success(input) =>
    match Required(ps, "inputOrder", DecodeInputOrder)
    case Failure(err) => Failure(err)
    case Success(inputOrder) =>
    match Required(ps, "output", DecodeOutput)
    case Failure(err) => Failure(err)
    case Success(output) =>
    match Required(ps, "outputIsList", DecodeBoolList)
    case Failure(err) => Failure(err)
    case Success(outputIsList) =>
    match Required(ps, "outputName", DecodeStringList)
    case Failure(err) => Failure(err)
    case Success(outputName) =>
      Success(Ports(input, inputOrder, output, outputIsList, outputName))
  }

  /** The name and flag fields, each required, in declaration order. */
  function DecodeLabels(ps: seq<(string, Json)>): (r: Result<Labels, DecodeError>)
    ensures r.Success? <==> LabelsDecode(ps)
    ensures r.Success? ==>
              && Decoded(ps, "name", DecodeString, r.value.name)
              && Decoded(ps, "displayName", DecodeString, r.value.displayName)
              && Decoded(ps, "description", DecodeString, r.value.description)
              && Decoded(ps, "pythonModule", DecodeString, r.value.pythonModule)
              && Decoded(ps, "category", DecodeString, r.value.category)
              && Decoded(ps, "outputNode", DecodeBool, r.value.outputNode)
  {
    RequiredDecodes(ps, "name", DecodeString);
    RequiredDecodes(ps, "displayName", DecodeString);
    RequiredDecodes(ps, "description", DecodeString);
    RequiredDecodes(ps, "pythonModule", DecodeString);
    RequiredDecodes(ps, "category", DecodeString);
    RequiredDecodes(ps, "outputNode", DecodeBool);
    match Required(ps, "name", DecodeString)
    case Failure(err) => Failure(err)
    case Success(name) =>
    match Required(ps, "displayName", DecodeString)
    case Failure(err) => Failure(err)
    case Success(displayName) =>
    match Required(ps, "description", DecodeString)
    case Failure(err) => Failure(err)
    case Success(description) =>
    match Required(ps, "pythonModule", DecodeString)
    case Failure(err) => Failure(err)
    case Success(pythonModule) =>
    match Required(ps, "category", DecodeString)
    case Failure(err) => Failure(err)
    case Success(category) =>
    match Required(ps, "outputNode", DecodeBool)
    case Failure(err) => Failure(err)
    case Success(outputNode) =>
      Success(Labels(name, displayName, description, pythonModule, category, outputNode))
  }

  /**
   * The fields with a default: `outputTooltips` defaults to an empty list and
   * `experimental`, `deprecated` and `apiNode` to false.
   */
  function DecodeExtras(ps: seq<(string, Json)>): (r: Result<Extras, DecodeError>)
    ensures r.Success? <==> AllDefaultedDecode(ps)
    ensures r.Success? && Lookup(ps, "outputTooltips").None? ==> r.value.outputTooltips == []
    ensures r.Success? && Lookup(ps, "outputTooltips").Some? ==>
              Decoded(ps, "outputTooltips", DecodeStringList, r.value.outputTooltips)
    ensures r.Success? && Lookup(ps, "experimental").None? ==> !r.value.experimental
    ensures r.Success? && Lookup(ps, "experimental").Some? ==> Decoded(ps, "experimental", DecodeBool, r.value.experimental)
    ensures r.Success? && Lookup(ps, "deprecated").None? ==> !r.value.deprecated
    ensures r.Success? && Lookup(ps, "deprecated").Some? ==> Decoded(ps, "deprecated", DecodeBool, r.value.deprecated)
    ensures r.Success? && Lookup(ps, "apiNode").None? ==> !r.value.apiNode
    ensures r.Success? && Lookup(ps, "apiNode").Some? ==> Decoded(ps, "apiNode", DecodeBool, r.value.apiNode)
  {
    DefaultedDecodes(ps, "outputTooltips", [], DecodeStringList);
    DefaultedDecodes(ps, "experimental", false, DecodeBool);
    DefaultedDecodes(ps, "deprecated", false, DecodeBool);
    DefaultedDecodes(ps, "apiNode", false, DecodeBool);
    match Defaulted(ps, "outputTooltips", [], DecodeStringList)
    case Failure(err) => Failure(err)
    case Success(outputTooltips) =>
    match Defaulted(ps, "experimental", false, DecodeBool)
    case Failure(err) => Failure(err)
    case Success(experimental) =>
    match Defaulted(ps, "deprecated", false, DecodeBool)
    case Failure(err) => Failure(err)
    case Success(deprecated) =>
    match Defaulted(ps, "apiNode", false, DecodeBool)
    case Failure(err) => Failure(err)
    case Success(apiNode) =>
      Success(Extras(outputTooltips, experimental, deprecated, apiNode))
  }

  /**
   * `NodeInfo`: an object whose eleven fields without a default are present
   * and decode, and whose four fields with a default are absent or decode.
   */
  function DecodeNodeInfo(e: Json): (r: Result<NodeInfo, DecodeError>)
    ensures !e.JObject? ==> r == Failure(NotAnObject)
    ensures e.JObject? && Lookup(e.properties, "input").None? ==> r == Failure(MissingKey("input"))
    ensures e.JObject? ==> forall k :: k in RequiredKeys && Lookup(e.properties, k).None? ==> r.Failure?
    ensures r.Success? <==> e.JObject? && AllRequiredDecode(e.properties) && AllDefaultedDecode(e.properties)
    ensures r.Success? ==>
              && Decoded(e.properties, "input", DecodeNodeInfoInput, r.value.input)
              && Decoded(e.properties, "inputOrder", DecodeInputOrder, r.value.inputOrder)
              && Decoded(e.properties, "output", DecodeOutput, r.value.output)
              && Decoded(e.properties, "outputIsList", DecodeBoolList, r.value.outputIsList)
              && Decoded(e.properties, "outputName", DecodeStringList, r.value.outputName)
              && Decoded(e.properties, "name", DecodeString, r.value.name)
              && Decoded(e.properties, "displayName", DecodeString, r.value.displayName)
              && Decoded(e.properties, "description", DecodeString, r.value.description)
              && Decoded(e.properties, "pythonModule", DecodeString, r.value.pythonModule)
              && Decoded(e.properties, "category", DecodeString, r.value.category)
              && Decoded(e.properties, "outputNode", DecodeBool, r.value.outputNode)
    ensures r.Success? && Lookup(e.properties, "outputTooltips").None? ==> r.value.outputTooltips == []
    ensures r.Success? && Lookup(e.properties, "outputTooltips").Some? ==>
              Decoded(e.properties, "outputTooltips", DecodeStringList, r.value.outputTooltips)
    ensures r.Success? && Lookup(e.properties, "experimental").None? ==> !r.value.experimental
    ensures r.Success? && Lookup(e.properties, "experimental").Some? ==>
              Decoded(e.properties, "experimental", DecodeBool, r.value.experimental)
    ensures r.Success? && Lookup(e.properties, "deprecated").None? ==> !r.value.deprecated
    ensures r.Success? && Lookup(e.properties, "deprecated").Some? ==>
              Decoded(e.properties, "deprecated", DecodeBool, r.value.deprecated)
    ensures r.Success? && Lookup(e.properties, "apiNode").None? ==> !r.value.apiNode
    ensures r.Success? && Lookup(e.properties, "apiNode").Some? ==>
              Decoded(e.properties, "apiNode", DecodeBool, r.value.apiNode)
  {
    if !e.JObject? then Failure(NotAnObject)
    else
      var ps := e.properties;
      MissingRequiredKey(ps);
      match DecodePorts(ps)
      case Failure(err) => Failure(err)
      case Success(p) =>
      match DecodeLabels(ps)
      case Failure(err) => Failure(err)
      case Success(l) =>
      match DecodeExtras(ps)
      case Failure(err) => Failure(err)
      case Success(x) =>
        Success(NodeInfo(p.input, p.inputOrder, p.output, p.outputIsList, p.outputName, l.name, l.displayName,
                         l.description, l.pythonModule, l.category, l.outputNode, x.outputTooltips,
                         x.experimental, x.deprecated, x.apiNode))
  }
}
