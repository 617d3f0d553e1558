// add_graph as it is written: a recursive procedure that pushes into and rewrites one mutable graph.
module FlattenPass {
  import opened Wrappers
  import opened Graph
  import opened Flatten

  class FlatGraph {
    var errors: bool
    var nodes: seq<Node>
    var edges: seq<Edge>
    var imsgs: seq<IMsg>
    var extIn: seq<ExtIn>
    var extOut: seq<ExtOut>

    function View(): Flat
      reads this
    {
      Flat(errors, nodes, edges, imsgs, extIn, extOut)
    }

    constructor ()
      ensures View() == EmptyFlat
    {
      errors, nodes, edges, imsgs, extIn, extOut := false, [], [], [], [], [];
    }

    /** Add the edges and initial messages of a level under its name. */
    method PushLevel(g: Level, name: string)
      modifies this`edges, this`imsgs
      ensures edges == old(edges) + PrefixEdges(name, g.edges)
      ensures imsgs == old(imsgs) + PrefixMsgs(name, g.imsgs)
    {
      for k := 0 to |g.edges|
        modifies this`edges
        invariant edges == old(edges) + PrefixEdges(name, g.edges)[..k]
      {
        edges := edges + [PrefixEdge(name, g.edges[k])];
      }
      for k := 0 to |g.imsgs|
        modifies this`imsgs
        invariant imsgs == old(imsgs) + PrefixMsgs(name, g.imsgs)[..k]
      {
        imsgs := imsgs + [PrefixMsg(name, g.imsgs[k])];
      }
    }

    /** Rewrite, edge by edge and message by message, what points at an exported input port of `name`. */
    method RewriteIn(x: ExtIn, name: string)
      modifies this`edges, this`imsgs, this`extIn
      ensures View() == ApplyIn(old(View()), name, x)
    {
      var compName := Join(name, x.inComp);
      for k := 0 to |edges|
        modifies this`edges
        invariant |edges| == |old(edges)|
        invariant forall j :: 0 <= j < k ==> edges[j] == EnterEdge(name, x, old(edges)[j])
        invariant forall j :: k <= j < |edges| ==> edges[j] == old(edges)[j]
      {
        if edges[k].inComp == name && edges[k].inPort == x.port {
          edges := edges[k := edges[k].(inComp := compName, inPort := x.inPort)];
        }
      }
      assert edges == EnterAll(name, x, old(edges));
      for k := 0 to |imsgs|
        modifies this`imsgs
        invariant |imsgs| == |old(imsgs)|
        invariant forall j :: 0 <= j < k ==> imsgs[j] == EnterMsg(name, x, old(imsgs)[j])
        invariant forall j :: k <= j < |imsgs| ==> imsgs[j] == old(imsgs)[j]
      {
        if imsgs[k].comp == name && imsgs[k].port == x.inPort {
          imsgs := imsgs[k := imsgs[k].(comp := compName, port := x.inPort, elem := x.inElem)];
        }
      }
      assert imsgs == EnterMsgs(name, x, old(imsgs));
      if |nodes| < 1 {
        extIn := extIn + [ExtIn(x.port, x.inPort, x.inElem, compName)];
      }
    }

    method RewriteOut(x: ExtOut, name: string)
      modifies this`edges, this`extOut
      ensures View() == ApplyOut(old(View()), name, x)
    {
      var compName := Join(name, x.outComp);
      for k := 0 to |edges|
        modifies this`edges
        invariant |edges| == |old(edges)|
        invariant forall j :: 0 <= j < k ==> edges[j] == LeaveEdge(name, x, old(edges)[j])
        invariant forall j :: k <= j < |edges| ==> edges[j] == old(edges)[j]
      {
        if edges[k].outComp == name && edges[k].outPort == x.port {
          edges := edges[k := edges[k].(outComp := compName, outPort := x.outPort)];
        }
      }
      assert edges == LeaveAll(name, x, old(edges));
      if |nodes| < 1 {
        extOut := extOut + [ExtOut(x.port, x.outPort, x.outElem, compName)];
      }
    }

    method OpenLevel(g: Level, name: string)
      modifies this
      ensures View() == Open(old(View()), g, name)
    {
      if g.failed {
        errors := true;
      }
      PushLevel(g, name);
      ghost var pushed := View();
      var ins := g.extIn;
      while ins != []
        invariant ApplyIns(pushed, name, g.extIn) == ApplyIns(View(), name, ins)
        decreases |ins|
      {
        RewriteIn(ins[0], name);
        ins := ins[1..];
      }
      ghost var entered := View();
      var outs := g.extOut;
      while outs != []
        invariant ApplyOuts(entered, name, g.extOut) == ApplyOuts(View(), name, outs)
        decreases |outs|
      {
        RewriteOut(outs[0], name);
        outs := outs[1..];
      }
    }

    method AddGraph(g: Level, name: string)
      modifies this
      ensures View() == Flatten.AddGraph(old(View()), g, name)
      decreases g
    {
      OpenLevel(g, name);
      ghost var start := View();
      var k := 0;
      while k < |g.nodes|
        invariant 0 <= k <= |g.nodes|
        invariant AddNodes(start, g.nodes, name) == AddNodes(View(), g.nodes[k..], name)
      {
        var c := g.nodes[k];
        ghost var before := View();
        assert g.nodes[k..][0] == c && g.nodes[k..][1..] == g.nodes[k + 1..];
        match c.unit {
          case Missing =>
            errors := false;
          case Leaf(path) =>
            nodes := nodes + [Node(Join(name, c.name), path)];
          case Sub(sub) =>
            AddGraph(sub, Join(name, c.name));
        }
        assert View() == AddNode(before, c, name);
        k := k + 1;
      }
    }
  }

  /** The agent's run body: flatten from the root and send the graph on unless the error flag is set. */
  method FlattenRoot(g: Level) returns (r: Option<Flat>)
    ensures r == if AddGraph(EmptyFlat, g, "").errors then None else Some(AddGraph(EmptyFlat, g, ""))
  {
    var graph := new FlatGraph();
    graph.AddGraph(g, "");
    r := if graph.errors then None else Some(graph.View());
  }
}
