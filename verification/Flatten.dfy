// The flattener of nodes/fvm/rs/vm/lib.rs: add_graph inlines a hierarchy of graphs into one flat graph by
// prefixing component names and rewriting edge endpoints in place. This file holds the pass as a function
// on values; FlattenPass.dfy has the loops over the mutable graph, and FlattenProofs.dfy its meaning.
module Flatten {
  import opened Wrappers
  import opened Graph

  /** What the lookup of a node's sort finds: a compiled agent, a graph, or nothing. */
  datatype Unit = Leaf(path: string) | Sub(graph: Level) | Missing

  datatype Child = Child(name: string, sort: string, unit: Unit)

  /** One graph of the hierarchy; `failed` when its path is "error". */
  datatype Level = Level(
    failed: bool, nodes: seq<Child>, edges: seq<Edge>, imsgs: seq<IMsg>, extIn: seq<ExtIn>, extOut: seq<ExtOut>)

  datatype Flat = Flat(
    errors: bool, nodes: seq<Node>, edges: seq<Edge>, imsgs: seq<IMsg>, extIn: seq<ExtIn>, extOut: seq<ExtOut>)

  const EmptyFlat := Flat(false, [], [], [], [], [])

  /** format!("{}-{}") */
  function Join(prefix: string, name: string): string {
    prefix + "-" + name
  }

  function PrefixEdge(name: string, e: Edge): Edge {
    e.(outComp := Join(name, e.outComp), inComp := Join(name, e.inComp))
  }

  function PrefixEdges(name: string, es: seq<Edge>): seq<Edge> {
    seq(|es|, k requires 0 <= k < |es| => PrefixEdge(name, es[k]))
  }

  function PrefixMsg(name: string, m: IMsg): IMsg {
    m.(comp := Join(name, m.comp))
  }

  function PrefixMsgs(name: string, ms: seq<IMsg>): seq<IMsg> {
    seq(|ms|, k requires 0 <= k < |ms| => PrefixMsg(name, ms[k]))
  }

  // ------------------------------------------------------------------ one exported port

  function EnterEdge(name: string, x: ExtIn, e: Edge): Edge {
    if e.inComp == name && e.inPort == x.port then e.(inComp := Join(name, x.inComp), inPort := x.inPort) else e
  }

  /** Compares with the inner port, unlike EnterEdge. */
  function EnterMsg(name: string, x: ExtIn, m: IMsg): IMsg {
    if m.comp == name && m.port == x.inPort then m.(comp := Join(name, x.inComp), port := x.inPort, elem := x.inElem) else m
  }

  function LeaveEdge(name: string, x: ExtOut, e: Edge): Edge {
    if e.outComp == name && e.outPort == x.port then e.(outComp := Join(name, x.outComp), outPort := x.outPort) else e
  }

  function EnterAll(name: string, x: ExtIn, es: seq<Edge>): seq<Edge> {
    seq(|es|, k requires 0 <= k < |es| => EnterEdge(name, x, es[k]))
  }

  function EnterMsgs(name: string, x: ExtIn, ms: seq<IMsg>): seq<IMsg> {
    seq(|ms|, k requires 0 <= k < |ms| => EnterMsg(name, x, ms[k]))
  }

  function LeaveAll(name: string, x: ExtOut, es: seq<Edge>): seq<Edge> {
    seq(|es|, k requires 0 <= k < |es| => LeaveEdge(name, x, es[k]))
  }

  function ApplyIn(f: Flat, name: string, x: ExtIn): Flat {
    f.(edges := EnterAll(name, x, f.edges),
       imsgs := EnterMsgs(name, x, f.imsgs),
       extIn := if |f.nodes| < 1 then f.extIn + [x.(inComp := Join(name, x.inComp))] else f.extIn)
  }

  function ApplyOut(f: Flat, name: string, x: ExtOut): Flat {
    f.(edges := LeaveAll(name, x, f.edges),
       extOut := if |f.nodes| < 1 then f.extOut + [x.(outComp := Join(name, x.outComp))] else f.extOut)
  }

  function ApplyIns(f: Flat, name: string, xs: seq<ExtIn>): Flat
    decreases |xs|
  {
    if xs == [] then f else ApplyIns(ApplyIn(f, name, xs[0]), name, xs[1..])
  }

  function ApplyOuts(f: Flat, name: string, xs: seq<ExtOut>): Flat
    decreases |xs|
  {
    if xs == [] then f else ApplyOuts(ApplyOut(f, name, xs[0]), name, xs[1..])
  }

  // ------------------------------------------------------------------ the recursion

  /** A level's own edges, messages and exported ports, before its nodes. */
  function Open(f: Flat, g: Level, name: string): Flat {
    var f1 := f.(errors := f.errors || g.failed,
                 edges := f.edges + PrefixEdges(name, g.edges),
                 imsgs := f.imsgs + PrefixMsgs(name, g.imsgs));
    ApplyOuts(ApplyIns(f1, name, g.extIn), name, g.extOut)
  }

  function AddGraph(f: Flat, g: Level, name: string): Flat
    decreases g, 1
  {
    AddNodes(Open(f, g, name), g.nodes, name)
  }

  function AddNode(f: Flat, c: Child, name: string): Flat
    decreases c, 0
  {
    match c.unit
    case Missing => f.(errors := false)
    case Leaf(path) => f.(nodes := f.nodes + [Node(Join(name, c.name), path)])
    case Sub(g) => AddGraph(f, g, Join(name, c.name))
  }

  function AddNodes(f: Flat, cs: seq<Child>, name: string): Flat
    decreases cs, 0
  {
    if cs == [] then f else AddNodes(AddNode(f, cs[0], name), cs[1..], name)
  }
}
