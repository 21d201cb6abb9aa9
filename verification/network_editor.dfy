/** The graph state of the network editor: module nodes dropped from the
    palette, parameter edits from the properties panel, and edges admitted
    between an output port and an input port only when both carry the same
    kind of data. */
module NetworkEditor {

  import opened Wrappers

  // ---------------------------------------------------------------------
  // Ports, modules, nodes and edges
  // ---------------------------------------------------------------------

  /** A port of a module; `dataType` is the kind of flow it carries
      (power, hydrogen, ...). */
  datatype Port = Port(id: string, dataType: string)

  /** A module parameter's value as the properties panel edits it. */
  datatype Value = Number(n: real) | Flag(b: bool) | Text(s: string)

  /** A palette entry: the template every dropped module is copied from. */
  datatype ModuleDefinition = ModuleDefinition(
    moduleType: string,
    labelText: string,
    inputPorts: seq<Port>,
    outputPorts: seq<Port>,
    parameters: map<string, Value>)

  /** What a node on the canvas carries. */
  datatype NodeData = NodeData(
    id: string,
    moduleType: string,
    labelText: string,
    inputPorts: seq<Port>,
    outputPorts: seq<Port>,
    parameters: map<string, Value>)

  datatype Node = Node(id: string, data: NodeData)

  /** A connection the user drags between two handles. */
  datatype Connection = Connection(
    source: string,
    sourceHandle: string,
    target: string,
    targetHandle: string)

  datatype Edge = Edge(
    id: string,
    source: string,
    sourceHandle: string,
    target: string,
    targetHandle: string,
    sourcePortId: string,
    targetPortId: string,
    dataType: string,
    stroke: string,
    animated: bool)

  /** The connection an edge was made from. */
  function ConnectionOf(e: Edge): Connection
  {
    Connection(e.source, e.sourceHandle, e.target, e.targetHandle)
  }

  // ---------------------------------------------------------------------
  // getPortColor
  // ---------------------------------------------------------------------

  const DefaultColor: string := "#555"

  /** `getPortColor`: four data types have a colour of their own, every
      other string gets the default grey. */
  function PortColor(dataType: string): (c: string)
    ensures c == DefaultColor <==>
      dataType !in {"power", "hydrogen", "oxygen", "percentage"}
  {
    match dataType
    case "power" => "#ff9800"
    case "hydrogen" => "#2196f3"
    case "oxygen" => "#4caf50"
    case "percentage" => "#9c27b0"
    case _ => DefaultColor
  }

  /** A colour other than the default identifies the data type. */
  lemma PortColorIdentifiesType(t1: string, t2: string)
    requires PortColor(t1) == PortColor(t2) != DefaultColor
    ensures t1 == t2
  {
  }

  // ---------------------------------------------------------------------
  // Lookups (`Array.prototype.find`)
  // ---------------------------------------------------------------------

  /** Position of the first node with the given id. */
  function NodeIndex(nodes: seq<Node>, id: string): (r: Option<nat>)
    ensures r.Some? ==> r.value < |nodes| && nodes[r.value].id == id
    ensures r.Some? ==> forall j :: 0 <= j < r.value ==> nodes[j].id != id
    ensures r.None? <==> forall j :: 0 <= j < |nodes| ==> nodes[j].id != id
  {
    if |nodes| == 0 then None
    else if nodes[0].id == id then Some(0)
    else match NodeIndex(nodes[1..], id)
      case None => None
      case Some(k) => Some(k + 1)
  }

  /** Position of the first port whose handle, `prefix` followed by the
      port id, is `handle`. */
  function PortIndex(ports: seq<Port>, prefix: string, handle: string): (r: Option<nat>)
    ensures r.Some? ==> r.value < |ports| && prefix + ports[r.value].id == handle
    ensures r.Some? ==> forall j :: 0 <= j < r.value ==> prefix + ports[j].id != handle
    ensures r.None? <==> forall j :: 0 <= j < |ports| ==> prefix + ports[j].id != handle
  {
    if |ports| == 0 then None
    else if prefix + ports[0].id == handle then Some(0)
    else match PortIndex(ports[1..], prefix, handle)
      case None => None
      case Some(k) => Some(k + 1)
  }

  /** Appending a node does not change where an id already present is
      found. */
  lemma {:induction false} NodeIndexAppend(nodes: seq<Node>, n: Node, id: string)
    requires NodeIndex(nodes, id).Some?
    ensures NodeIndex(nodes + [n], id) == NodeIndex(nodes, id)
  {
    if nodes[0].id != id {
      NodeIndexAppend(nodes[1..], n, id);
      assert (nodes + [n])[1..] == nodes[1..] + [n];
    }
  }

  /** Lookups by id see only the ids. */
  lemma {:induction false} NodeIndexSameIds(nodes: seq<Node>, other: seq<Node>, id: string)
    requires |nodes| == |other|
    requires forall i :: 0 <= i < |nodes| ==> nodes[i].id == other[i].id
    ensures NodeIndex(nodes, id) == NodeIndex(other, id)
  {
    if |nodes| > 0 && nodes[0].id != id {
      NodeIndexSameIds(nodes[1..], other[1..], id);
    }
  }

  // ---------------------------------------------------------------------
  // onConnect
  // ---------------------------------------------------------------------

  const OutputPrefix: string := "output-"
  const InputPrefix: string := "input-"

  /** The output port the connection's source handle names on its source
      node, if both exist. */
  function SourcePort(nodes: seq<Node>, c: Connection): (r: Option<Port>)
    ensures r.Some? <==>
      && NodeIndex(nodes, c.source).Some?
      && PortIndex(nodes[NodeIndex(nodes, c.source).value].data.outputPorts, OutputPrefix, c.sourceHandle).Some?
    ensures r.Some? ==>
      && r.value in nodes[NodeIndex(nodes, c.source).value].data.outputPorts
      && OutputPrefix + r.value.id == c.sourceHandle
  {
    match NodeIndex(nodes, c.source)
    case None => None
    case Some(i) =>
      var ports := nodes[i].data.outputPorts;
      match PortIndex(ports, OutputPrefix, c.sourceHandle)
      case None => None
      case Some(k) => Some(ports[k])
  }

  /** The input port the connection's target handle names on its target
      node, if both exist. */
  function TargetPort(nodes: seq<Node>, c: Connection): (r: Option<Port>)
    ensures r.Some? <==>
      && NodeIndex(nodes, c.target).Some?
      && PortIndex(nodes[NodeIndex(nodes, c.target).value].data.inputPorts, InputPrefix, c.targetHandle).Some?
    ensures r.Some? ==>
      && r.value in nodes[NodeIndex(nodes, c.target).value].data.inputPorts
      && InputPrefix + r.value.id == c.targetHandle
  {
    match NodeIndex(nodes, c.target)
    case None => None
    case Some(i) =>
      var ports := nodes[i].data.inputPorts;
      match PortIndex(ports, InputPrefix, c.targetHandle)
      case None => None
      case Some(k) => Some(ports[k])
  }

  /** The id an admitted edge gets: its endpoints and handles. */
  function EdgeId(c: Connection): string
  {
    "e" + c.source + "-" + c.sourceHandle + "-" + c.target + "-" + c.targetHandle
  }

  /** What a connection attempt comes to. */
  datatype ConnectOutcome =
    | MissingNode
    | MissingPort
    | Incompatible(sourceType: string, targetType: string)
    | Admitted(edge: Edge)

  /** `onConnect`'s decision. Both nodes are looked up first, then both
      ports; an edge is admitted exactly when both ports resolve and carry
      the same data type, and it records the connection, both port ids, the
      shared type and that type's colour. */
  function Connect(nodes: seq<Node>, c: Connection): (r: ConnectOutcome)
    ensures r.Admitted? <==>
      SourcePort(nodes, c).Some? && TargetPort(nodes, c).Some?
      && SourcePort(nodes, c).value.dataType == TargetPort(nodes, c).value.dataType
    ensures r.Incompatible? <==>
      SourcePort(nodes, c).Some? && TargetPort(nodes, c).Some?
      && SourcePort(nodes, c).value.dataType != TargetPort(nodes, c).value.dataType
    ensures r.Admitted? ==>
      && r.edge.id == EdgeId(c)
      && ConnectionOf(r.edge) == c
      && r.edge.sourcePortId == SourcePort(nodes, c).value.id
      && r.edge.targetPortId == TargetPort(nodes, c).value.id
      && r.edge.dataType == SourcePort(nodes, c).value.dataType
      && r.edge.stroke == PortColor(r.edge.dataType)
      && r.edge.animated
  {
    var si := NodeIndex(nodes, c.source);
    var ti := NodeIndex(nodes, c.target);
    if si.None? || ti.None? then MissingNode
    else
      var sourcePorts := nodes[si.value].data.outputPorts;
      var targetPorts := nodes[ti.value].data.inputPorts;
      var sp := PortIndex(sourcePorts, OutputPrefix, c.sourceHandle);
      var tp := PortIndex(targetPorts, InputPrefix, c.targetHandle);
      if sp.None? || tp.None? then MissingPort
      else
        var s := sourcePorts[sp.value];
        var t := targetPorts[tp.value];
        if s.dataType == t.dataType then
          Admitted(Edge(EdgeId(c), c.source, c.sourceHandle, c.target, c.targetHandle,
                        s.id, t.id, s.dataType, PortColor(s.dataType), true))
        else Incompatible(s.dataType, t.dataType)
  }

  /** Every edge is one the type check admits for the current nodes. */
  ghost predicate EdgesAdmitted(nodes: seq<Node>, edges: seq<Edge>)
  {
    forall i :: 0 <= i < |edges| ==> Connect(nodes, ConnectionOf(edges[i])) == Admitted(edges[i])
  }

  /** Admitted edges join an output port and an input port that exist and
      carry the same data type, and are drawn in that type's colour. */
  lemma AdmittedEdgesAreTyped(nodes: seq<Node>, edges: seq<Edge>, i: nat)
    requires EdgesAdmitted(nodes, edges) && i < |edges|
    ensures var c := ConnectionOf(edges[i]);
      && SourcePort(nodes, c).Some? && TargetPort(nodes, c).Some?
      && SourcePort(nodes, c).value.dataType == edges[i].dataType
      && TargetPort(nodes, c).value.dataType == edges[i].dataType
      && edges[i].stroke == PortColor(edges[i].dataType)
  {
    var c := ConnectionOf(edges[i]);
    assert Connect(nodes, c) == Admitted(edges[i]);
  }

  /** An admitted connection stays admitted, as the same edge, when a node
      is appended. */
  lemma ConnectAfterAppend(nodes: seq<Node>, n: Node, c: Connection)
    requires Connect(nodes, c).Admitted?
    ensures Connect(nodes + [n], c) == Connect(nodes, c)
  {
    NodeIndexAppend(nodes, n, c.source);
    NodeIndexAppend(nodes, n, c.target);
    var i := NodeIndex(nodes, c.source).value;
    var j := NodeIndex(nodes, c.target).value;
    assert (nodes + [n])[i] == nodes[i] && (nodes + [n])[j] == nodes[j];
  }

  // ---------------------------------------------------------------------
  // onParameterChange
  // ---------------------------------------------------------------------

  /** A node with one parameter set, everything else as it was. */
  function WithParameter(n: Node, name: string, value: Value): Node
  {
    n.(data := n.data.(parameters := n.data.parameters[name := value]))
  }

  /** `onParameterChange`'s new node list: the nodes with the given id get
      the parameter set, all others are unchanged, and the order is kept. */
  function SetParameter(nodes: seq<Node>, nodeId: string, name: string, value: Value): (r: seq<Node>)
    ensures |r| == |nodes|
    ensures forall i :: 0 <= i < |r| ==> r[i].id == nodes[i].id
    ensures forall i :: 0 <= i < |r| && nodes[i].id != nodeId ==> r[i] == nodes[i]
    ensures forall i :: 0 <= i < |r| && nodes[i].id == nodeId ==>
      && r[i].data.parameters == nodes[i].data.parameters[name := value]
      && r[i].data.(parameters := nodes[i].data.parameters) == nodes[i].data
  {
    seq(|nodes|, i requires 0 <= i < |nodes| =>
      if nodes[i].id == nodeId then WithParameter(nodes[i], name, value) else nodes[i])
  }

  /** With node ids unique, a parameter change alters exactly one node and,
      in it, exactly the named parameter. */
  lemma SetParameterChangesOneParameter(nodes: seq<Node>, nodeId: string, name: string, value: Value, i: nat)
    requires forall j, k :: 0 <= j < k < |nodes| ==> nodes[j].id != nodes[k].id
    requires i < |nodes| && nodes[i].id == nodeId
    ensures var r := SetParameter(nodes, nodeId, name, value);
      && (forall j :: 0 <= j < |nodes| && j != i ==> r[j] == nodes[j])
      && r[i].data.parameters[name] == value
      && (forall p :: p in nodes[i].data.parameters && p != name ==>
            p in r[i].data.parameters && r[i].data.parameters[p] == nodes[i].data.parameters[p])
      && r[i].data.parameters.Keys == nodes[i].data.parameters.Keys + {name}
  {
  }

  /** Parameters do not take part in the type check: every connection has
      the same outcome after a parameter change. */
  lemma ConnectAfterSetParameter(nodes: seq<Node>, nodeId: string, name: string, value: Value, c: Connection)
    ensures Connect(SetParameter(nodes, nodeId, name, value), c) == Connect(nodes, c)
  {
    var r := SetParameter(nodes, nodeId, name, value);
    NodeIndexSameIds(nodes, r, c.source);
    NodeIndexSameIds(nodes, r, c.target);
    forall i | 0 <= i < |nodes|
      ensures r[i].data.outputPorts == nodes[i].data.outputPorts
      ensures r[i].data.inputPorts == nodes[i].data.inputPorts
    {
    }
  }

  // ---------------------------------------------------------------------
  // onDrop
  // ---------------------------------------------------------------------

  /** Decimal digits of a natural number, as a template literal prints it. */
  function NatToString(n: nat): (s: string)
    ensures |s| >= 1
    ensures forall i :: 0 <= i < |s| ==> '0' <= s[i] <= '9'
    ensures s[0] == '0' ==> s == "0"
    ensures DigitsValue(s) == n
  {
    if n < 10 then [DigitChar(n)]
    else
      var s := NatToString(n / 10) + [DigitChar(n % 10)];
      assert s[..|s| - 1] == NatToString(n / 10);
      s
  }

  function DigitChar(d: nat): (c: char)
    requires d < 10
    ensures '0' <= c <= '9' && (c as int) - ('0' as int) == d
  {
    "0123456789"[d]
  }

  /** The number a string of decimal digits denotes. */
  function DigitsValue(s: string): nat
    requires forall i :: 0 <= i < |s| ==> '0' <= s[i] <= '9'
  {
    if |s| == 0 then 0
    else DigitsValue(s[..|s| - 1]) * 10 + ((s[|s| - 1] as int) - ('0' as int))
  }

  /** Different numbers print differently. */
  lemma NatToStringInjective(a: nat, b: nat)
    requires a != b
    ensures NatToString(a) != NatToString(b)
  {
  }

  /** Two labels with one prefix and different numbers differ. */
  lemma NumberedLabelsDiffer(prefix: string, a: nat, b: nat)
    requires a != b
    ensures prefix + NatToString(a) != prefix + NatToString(b)
  {
    NatToStringInjective(a, b);
    assert (prefix + NatToString(a))[|prefix|..] == NatToString(a);
    assert (prefix + NatToString(b))[|prefix|..] == NatToString(b);
  }

  /** How many nodes on the canvas are of the given module type. */
  function CountOfType(nodes: seq<Node>, moduleType: string): (k: nat)
    ensures k <= |nodes|
  {
    if |nodes| == 0 then 0
    else CountOfType(nodes[..|nodes| - 1], moduleType)
         + (if nodes[|nodes| - 1].data.moduleType == moduleType then 1 else 0)
  }

  /** `onDrop`'s new node list. An empty module type, or one with no
      palette entry, adds nothing. Otherwise one node is appended: its id is
      the type and the drop time, it is a copy of the palette entry labelled
      with the entry's label and one more than the number of nodes of that
      type already placed. */
  function Dropped(nodes: seq<Node>, moduleType: string, now: nat,
                   definitions: map<string, ModuleDefinition>): (r: seq<Node>)
    ensures moduleType == "" || moduleType !in definitions ==> r == nodes
    ensures moduleType != "" && moduleType in definitions ==>
      var d := definitions[moduleType];
      var id := moduleType + "-" + NatToString(now);
      && |r| == |nodes| + 1
      && r[..|nodes|] == nodes
      && r[|nodes|].id == id
      && r[|nodes|].data == NodeData(id, d.moduleType,
           d.labelText + " " + NatToString(CountOfType(nodes, moduleType) + 1),
           d.inputPorts, d.outputPorts, d.parameters)
  {
    if moduleType == "" || moduleType !in definitions then nodes
    else
      var d := definitions[moduleType];
      var id := moduleType + "-" + NatToString(now);
      var caption := d.labelText + " " + NatToString(CountOfType(nodes, moduleType) + 1);
      var r := nodes + [Node(id, NodeData(id, d.moduleType, caption, d.inputPorts, d.outputPorts, d.parameters))];
      assert r[..|nodes|] == nodes;
      r
  }

  /** When a palette entry's own type is its key (as in the shipped
      palette), each drop of that type raises the count the next label is
      numbered from by one: successive drops are labelled 1, 2, 3, ... and
      never repeat a label. */
  lemma DropNumbersConsecutively(nodes: seq<Node>, moduleType: string, now: nat,
                                 definitions: map<string, ModuleDefinition>)
    requires moduleType != "" && moduleType in definitions
    requires definitions[moduleType].moduleType == moduleType
    ensures CountOfType(Dropped(nodes, moduleType, now, definitions), moduleType)
         == CountOfType(nodes, moduleType) + 1
  {
    var r := Dropped(nodes, moduleType, now, definitions);
    assert r[..|r| - 1] == nodes;
  }

  /** Two nodes of one type dropped one after the other get different
      labels. */
  lemma SuccessiveDropsHaveDistinctLabels(nodes: seq<Node>, moduleType: string, now1: nat, now2: nat,
                                          definitions: map<string, ModuleDefinition>)
    requires moduleType != "" && moduleType in definitions
    requires definitions[moduleType].moduleType == moduleType
    ensures var once := Dropped(nodes, moduleType, now1, definitions);
      var twice := Dropped(once, moduleType, now2, definitions);
      twice[|nodes|].data.labelText != twice[|nodes| + 1].data.labelText
  {
    var d := definitions[moduleType];
    var once := Dropped(nodes, moduleType, now1, definitions);
    var twice := Dropped(once, moduleType, now2, definitions);
    var k := CountOfType(nodes, moduleType);
    DropNumbersConsecutively(nodes, moduleType, now1, definitions);
    assert twice[|nodes|] == once[|nodes|] by {
      assert twice[..|once|] == once;
    }
    NumberedLabelsDiffer(d.labelText + " ", k + 1, k + 2);
  }

  // ---------------------------------------------------------------------
  // The editor's state
  // ---------------------------------------------------------------------

  /** The nodes and edges of the canvas, replaced wholesale by each
      handler. */
  class Editor {
    var nodes: seq<Node>
    var edges: seq<Edge>

    /** Every edge on the canvas passed the type check for the nodes now on
        it. */
    ghost predicate Valid()
      reads this
    {
      EdgesAdmitted(nodes, edges)
    }

    /** The editor opens empty. */
    constructor ()
      ensures nodes == [] && edges == []
      ensures Valid()
    {
      nodes := [];
      edges := [];
    }

    /** `onConnect`: the edge is appended when the type check admits it;
        otherwise (a missing node or port, or mismatched types) nothing
        changes. */
    method OnConnect(c: Connection)
      requires Valid()
      modifies this
      ensures Valid()
      ensures nodes == old(nodes)
      ensures Connect(nodes, c).Admitted? ==> edges == old(edges) + [Connect(nodes, c).edge]
      ensures !Connect(nodes, c).Admitted? ==> edges == old(edges)
    {
      var outcome := Connect(nodes, c);
      if outcome.Admitted? {
        edges := edges + [outcome.edge];
      }
    }

    /** `onParameterChange`: sets one parameter on the nodes with the given
        id; the edges stay as they were and all stay admitted. */
    method OnParameterChange(nodeId: string, name: string, value: Value)
      requires Valid()
      modifies this
      ensures Valid()
      ensures nodes == SetParameter(old(nodes), nodeId, name, value)
      ensures edges == old(edges)
    {
      forall i | 0 <= i < |edges|
        ensures Connect(SetParameter(nodes, nodeId, name, value), ConnectionOf(edges[i])) == Admitted(edges[i])
      {
        ConnectAfterSetParameter(nodes, nodeId, name, value, ConnectionOf(edges[i]));
      }
      nodes := SetParameter(nodes, nodeId, name, value);
    }

    /** `onDrop`: when the canvas is ready, appends a node for a known module
        type and leaves the edges, which all stay admitted. `now` is the
        drop time in milliseconds. */
    method OnDrop(canvasReady: bool, moduleType: string, now: nat,
                  definitions: map<string, ModuleDefinition>)
      requires Valid()
      modifies this
      ensures Valid()
      ensures canvasReady ==> nodes == Dropped(old(nodes), moduleType, now, definitions)
      ensures !canvasReady ==> nodes == old(nodes)
      ensures edges == old(edges)
    {
      if canvasReady {
        var r := Dropped(nodes, moduleType, now, definitions);
        if |r| > |nodes| {
          forall i | 0 <= i < |edges|
            ensures Connect(r, ConnectionOf(edges[i])) == Admitted(edges[i])
          {
            ConnectAfterAppend(nodes, r[|nodes|], ConnectionOf(edges[i]));
            assert r == nodes + [r[|nodes|]];
          }
        }
        nodes := r;
      }
    }
  }
}
