// The graph a flowscript text denotes (edges/rs/core/graph/edge.rs).
module Graph {
  import opened Wrappers

  datatype Node = Node(name: string, sort: string)

  datatype Edge = Edge(
    outComp: string, outPort: string, outElem: Option<string>,
    inPort: string, inElem: Option<string>, inComp: string)

  datatype IMsg = IMsg(msg: string, port: string, elem: Option<string>, comp: string)

  datatype ExtIn = ExtIn(port: string, inPort: string, inElem: Option<string>, inComp: string)

  datatype ExtOut = ExtOut(port: string, outPort: string, outElem: Option<string>, outComp: string)

  datatype CoreGraph = CoreGraph(
    nodes: seq<Node>, edges: seq<Edge>, imsgs: seq<IMsg>, extIn: seq<ExtIn>, extOut: seq<ExtOut>)

  const Empty := CoreGraph([], [], [], [], [])
}
