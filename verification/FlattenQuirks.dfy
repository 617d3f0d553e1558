// Where the flattener does something else than its comments promise: initial messages, the error flag, the exported
// ports of the main graph, and names that run into each other. Each comes with its condition and an input.
module FlattenQuirks {
  import opened Wrappers
  import opened Graph
  import opened Flatten
  import opened FlattenNames
  import opened FlattenProofs
  import opened FlattenClosed
  import opened FlattenMessages

  // ------------------------------------------------------------------ initial messages

  /** What an initial message for an exported port of `name` should become, as for an edge. */
  function Retargeted(name: string, x: ExtIn, m: IMsg): IMsg {
    if m.comp == name && m.port == x.port then m.(comp := Join(name, x.inComp), port := x.inPort, elem := x.inElem) else m
  }

  /** Initial messages follow an exported port exactly when its outer and inner names agree about the message: the
      pass compares with the inner name. */
  lemma MessageFollowsIff(name: string, x: ExtIn, m: IMsg)
    ensures EnterMsg(name, x, m) == Retargeted(name, x, m) <==>
      (m.comp == name ==> (m.port == x.port <==> m.port == x.inPort))
  {
    JoinDiffers(name, x.inComp);
  }

  // ------------------------------------------------------------------ the error flag

  /** What the levels and nodes write to the error flag, in the order the pass meets them: a level whose path is
      "error" raises it, a node whose sort is unknown clears it. */
  function Verdicts(g: Level): seq<bool>
    decreases g, 1
  {
    (if g.failed then [true] else []) + NodeVerdicts(g.nodes)
  }

  function NodeVerdicts(cs: seq<Child>): seq<bool>
    decreases cs, 0
  {
    if cs == [] then []
    else (match cs[0].unit case Missing => [false] case Leaf(_) => [] case Sub(g) => Verdicts(g)) + NodeVerdicts(cs[1..])
  }

  function Last(vs: seq<bool>, start: bool): bool {
    if vs == [] then start else vs[|vs| - 1]
  }

  lemma LastConcat(vs: seq<bool>, ws: seq<bool>, start: bool)
    ensures Last(vs + ws, start) == Last(ws, Last(vs, start))
  {
  }

  lemma {:induction false} NodesFlag(f: Flat, cs: seq<Child>, path: string)
    ensures AddNodes(f, cs, path).errors == Last(NodeVerdicts(cs), f.errors)
    decreases cs, 0
  {
    if cs != [] {
      if cs[0].unit.Sub? {
        GraphFlag(f, cs[0].unit.graph, Join(path, cs[0].name));
      }
      NodesFlag(AddNode(f, cs[0], path), cs[1..], path);
      LastConcat(match cs[0].unit case Missing => [false] case Leaf(_) => [] case Sub(g) => Verdicts(g), NodeVerdicts(cs[1..]), f.errors);
    }
  }

  lemma {:induction false} GraphFlag(f: Flat, g: Level, path: string)
    ensures AddGraph(f, g, path).errors == Last(Verdicts(g), f.errors)
    decreases g, 1
  {
    OpenFlag(f, g, path);
    NodesFlag(Open(f, g, path), g.nodes, path);
    LastConcat(if g.failed then [true] else [], NodeVerdicts(g.nodes), f.errors);
  }

  lemma OpenFlag(f: Flat, g: Level, path: string)
    ensures Open(f, g, path).errors == (f.errors || g.failed)
  {
    OpenCarries(f, g, path);
  }

  /** The flat graph is held back exactly when the last thing written to the flag raised it: a level that failed to
      parse is forgotten as soon as a later node has an unknown sort. */
  lemma {:induction false} HeldBackIff(g: Level)
    ensures AddGraph(EmptyFlat, g, "").errors <==> Verdicts(g) != [] && Verdicts(g)[|Verdicts(g)| - 1]
  {
    GraphFlag(EmptyFlat, g, "");
  }

  lemma {:induction false} FailureForgotten(g: Level)
    requires g.failed && g.nodes != [] && g.nodes[|g.nodes| - 1].unit.Missing?
    ensures !AddGraph(EmptyFlat, g, "").errors
  {
    GraphFlag(EmptyFlat, g, "");
    LastVerdict(g.nodes);
  }

  lemma {:induction false} LastVerdict(cs: seq<Child>)
    requires cs != [] && cs[|cs| - 1].unit.Missing?
    ensures NodeVerdicts(cs) != [] && !NodeVerdicts(cs)[|NodeVerdicts(cs)| - 1]
    decreases |cs|
  {
    if |cs| > 1 {
      LastVerdict(cs[1..]);
    }
  }

  // ------------------------------------------------------------------ exported ports of the main graph

  datatype Exports = Exports(ins: seq<ExtIn>, outs: seq<ExtOut>)

  function Plus(a: Exports, b: Exports): Exports {
    Exports(a.ins + b.ins, a.outs + b.outs)
  }

  function ExportsOfFlat(f: Flat): Exports {
    Exports(f.extIn, f.extOut)
  }

  function FullIns(xs: seq<ExtIn>, path: string): seq<ExtIn> {
    if xs == [] then [] else [xs[0].(inComp := Join(path, xs[0].inComp))] + FullIns(xs[1..], path)
  }

  function FullOuts(xs: seq<ExtOut>, path: string): seq<ExtOut> {
    if xs == [] then [] else [xs[0].(outComp := Join(path, xs[0].outComp))] + FullOuts(xs[1..], path)
  }

  /** A level's own exported ports under their full names. */
  function Own(g: Level, path: string): Exports {
    Exports(FullIns(g.extIn, path), FullOuts(g.extOut, path))
  }

  const NoExports := Exports([], [])

  lemma PlusLaws(a: Exports, b: Exports, c: Exports)
    ensures Plus(Plus(a, b), c) == Plus(a, Plus(b, c)) && Plus(a, NoExports) == a
  {
  }

  /** The exported ports of the subgraphs met before the first agent. */
  function Early(cs: seq<Child>, path: string): Exports
    decreases cs, 0
  {
    if cs == [] then NoExports
    else Plus(EarlyNode(cs[0], path), if NodeLeaves(cs[0], path) == [] then Early(cs[1..], path) else NoExports)
  }

  function EarlyNode(c: Child, path: string): Exports
    decreases c, 0
  {
    match c.unit
    case Missing => NoExports
    case Leaf(_) => NoExports
    case Sub(g) => Plus(Own(g, Join(path, c.name)), Early(g.nodes, Join(path, c.name)))
  }

  lemma {:induction false} InsExports(f: Flat, name: string, xs: seq<ExtIn>)
    ensures var r := ApplyIns(f, name, xs);
      r.nodes == f.nodes && r.extOut == f.extOut && r.extIn == if f.nodes == [] then f.extIn + FullIns(xs, name) else f.extIn
    decreases |xs|
  {
    if xs != [] {
      InsExports(ApplyIn(f, name, xs[0]), name, xs[1..]);
    }
  }

  lemma {:induction false} OutsExports(f: Flat, name: string, xs: seq<ExtOut>)
    ensures var r := ApplyOuts(f, name, xs);
      r.nodes == f.nodes && r.extIn == f.extIn && r.extOut == if f.nodes == [] then f.extOut + FullOuts(xs, name) else f.extOut
    decreases |xs|
  {
    if xs != [] {
      OutsExports(ApplyOut(f, name, xs[0]), name, xs[1..]);
    }
  }

  lemma OpenExports(f: Flat, g: Level, path: string)
    ensures var r := Open(f, g, path);
      && r.nodes == f.nodes
      && ExportsOfFlat(r) == if f.nodes == [] then Plus(ExportsOfFlat(f), Own(g, path)) else ExportsOfFlat(f)
  {
    var f1 := f.(errors := f.errors || g.failed,
                 edges := f.edges + PrefixEdges(path, g.edges),
                 imsgs := f.imsgs + PrefixMsgs(path, g.imsgs));
    InsExports(f1, path, g.extIn);
    OutsExports(ApplyIns(f1, path, g.extIn), path, g.extOut);
  }

  lemma {:induction false} GraphExports(f: Flat, g: Level, path: string)
    ensures ExportsOfFlat(AddGraph(f, g, path)) ==
      if f.nodes == [] then Plus(ExportsOfFlat(f), Plus(Own(g, path), Early(g.nodes, path))) else ExportsOfFlat(f)
    decreases g, 1
  {
    OpenExports(f, g, path);
    NodesExports(Open(f, g, path), g.nodes, path);
    PlusLaws(ExportsOfFlat(f), Own(g, path), Early(g.nodes, path));
  }

  lemma {:induction false} NodeExports(f: Flat, c: Child, path: string)
    ensures ExportsOfFlat(AddNode(f, c, path)) ==
      if f.nodes == [] then Plus(ExportsOfFlat(f), EarlyNode(c, path)) else ExportsOfFlat(f)
    decreases c, 0
  {
    if c.unit.Sub? {
      GraphExports(f, c.unit.graph, Join(path, c.name));
    } else {
      PlusLaws(ExportsOfFlat(f), NoExports, NoExports);
    }
  }

  lemma {:induction false} NodesExports(f: Flat, cs: seq<Child>, path: string)
    ensures ExportsOfFlat(AddNodes(f, cs, path)) ==
      if f.nodes == [] then Plus(ExportsOfFlat(f), Early(cs, path)) else ExportsOfFlat(f)
    decreases cs, 0
  {
    PlusLaws(ExportsOfFlat(f), NoExports, NoExports);
    if cs != [] {
      var first := EarlyNode(cs[0], path);
      NodeExports(f, cs[0], path);
      NodesExports(AddNode(f, cs[0], path), cs[1..], path);
      AddNodeLeaves(f, cs[0], path);
      PlusLaws(ExportsOfFlat(f), first, Early(cs[1..], path));
      PlusLaws(first, NoExports, NoExports);
    }
  }

  /** The flat graph exports exactly the ports of the main graph if and only if no subgraph met before the first
      agent exports anything. */
  lemma {:induction false} OnlyMainExportsIff(g: Level)
    ensures ExportsOfFlat(AddGraph(EmptyFlat, g, "")) == Own(g, "") <==> Early(g.nodes, "") == NoExports
    ensures ExportsOfFlat(AddGraph(EmptyFlat, g, "")) == Plus(Own(g, ""), Early(g.nodes, ""))
  {
    GraphExports(EmptyFlat, g, "");
    if Plus(Own(g, ""), Early(g.nodes, "")) == Own(g, "") {
      assert |Early(g.nodes, "").ins| == 0 && |Early(g.nodes, "").outs| == 0;
    }
  }

  // ------------------------------------------------------------------ hierarchies in which it shows

  /** An agent `a` whose port is exported, renamed from `input` to `in`. */
  function Renaming(): Level {
    Level(false, [Child("a", "A", Leaf("/agent"))], [], [], [ExtIn("in", "input", None, "a")], [])
  }

  /** The main graph: that subgraph under the name `s`, and an initial message for its port. */
  function Outer(): Level {
    Level(false, [Child("s", "S", Sub(Renaming()))], [], [IMsg("1", "in", None, "s")], [], [])
  }

  lemma OuterNamed()
    ensures WellNamed(Outer())
  {
    assert Renaming().nodes[1..] == [] && Outer().nodes[1..] == [];
    assert Uses(Renaming()) == {"a"} && Uses(Outer()) == {"s"};
    assert Plain(Renaming()) && Plain(Outer());
    PlainIsWellNamed(Outer());
  }

  lemma {:induction false} OuterFlat()
    ensures var f := AddGraph(EmptyFlat, Outer(), "");
      && f.nodes == [Node("-s-a", "/agent")]
      && f.imsgs == [IMsg("1", "in", None, "-s")]
      && f.extIn == [ExtIn("in", "input", None, "-s-a")]
  {
    var o, i := Outer(), Renaming();
    var m := IMsg("1", "in", None, "-s");
    assert Join("", "s") == "-s" && Join("-s", "a") == "-s-a";
    var f1 := Open(EmptyFlat, o, "");
    assert f1 == Flat(false, [], [], [m], [], []) by {
      assert PrefixMsgs("", o.imsgs) == [m];
      assert PrefixEdges("", o.edges) == [];
    }
    var x := ExtIn("in", "input", None, "a");
    var f2 := Open(f1, i, "-s");
    assert f2 == Flat(false, [], [], [m], [ExtIn("in", "input", None, "-s-a")], []) by {
      assert PrefixMsgs("-s", i.imsgs) == [] && PrefixEdges("-s", i.edges) == [];
      MessageStays("-s", x, m);
      assert EnterMsgs("-s", x, [m]) == [m] && EnterAll("-s", x, []) == [];
      assert i.extIn[1..] == [];
    }
    assert i.nodes[1..] == [] && o.nodes[1..] == [];
    assert AddNodes(f2, i.nodes, "-s") == AddNode(f2, i.nodes[0], "-s");
    assert AddNodes(f1, o.nodes, "") == AddNode(f1, o.nodes[0], "");
  }

  lemma MessageStays(name: string, x: ExtIn, m: IMsg)
    requires m.port == "in" && x.inPort == "input"
    ensures EnterMsg(name, x, m) == m
  {
    assert |"in"| == 2 && |"input"| == 5;
  }

  /** The message for the renamed port stays on the subgraph, which is no entry of the flat node list. */
  lemma MessageLost()
    ensures WellNamed(Outer()) && !AllAgree(Outer())
    ensures var f := AddGraph(EmptyFlat, Outer(), ""); f.imsgs == [IMsg("1", "in", None, "-s")] && !Named(f.nodes, "-s")
  {
    OuterNamed();
    OuterFlat();
    var o, i := Outer(), Renaming();
    assert FindSub(o.nodes, "s") == Some(i);
    assert FirstExport(ExportsOf(i, Initial), "in").None? by {
      assert |"in"| == 2 && |"input"| == 5;
      assert ExportsOf(i, Initial)[1..] == [];
    }
    assert FirstExport(ExportsOf(i, Meant), "in").Some?;
    assert !Agree(o.nodes, "s", Spot("in", None), Spot("in", None));
    assert o.imsgs[0].comp == "s";
    assert |"-s"| == 2 && |"-s-a"| == 4;
  }

  /** The subgraph's exported port becomes one of the flat graph, though the main graph exports nothing. */
  lemma ExportLeaks()
    ensures Own(Outer(), "") == NoExports && Early(Outer().nodes, "") != NoExports
    ensures ExportsOfFlat(AddGraph(EmptyFlat, Outer(), "")) != Own(Outer(), "")
  {
    OuterFlat();
    OnlyMainExportsIff(Outer());
  }

  function Colliding(): Level {
    Level(false, [Child("s", "S", Sub(Renaming())), Child("s-a", "B", Leaf("/other"))], [], [], [], [])
  }

  lemma {:induction false} CollidingLeaves()
    ensures Leaves(Colliding().nodes, "") == [Node("-s-a", "/agent"), Node("-s-a", "/other")]
  {
    var cs := Colliding().nodes;
    assert Join("", "s") == "-s" && Join("-s", "a") == "-s-a" && Join("", "s-a") == "-s-a";
    assert Renaming().nodes[1..] == [] && Leaves([], "-s") == [];
    assert Leaves(Renaming().nodes, "-s") == [Node("-s-a", "/agent")];
    assert cs[1..] == [cs[1]] && cs[1..][1..] == [] && Leaves([], "") == [];
    assert Leaves(cs[1..], "") == [Node("-s-a", "/other")];
  }

  /** Names that run into each other: subgraph `s` with an agent `a`, beside an agent `s-a`. */
  lemma PathsCollide()
    ensures !PathsApart(Colliding().nodes)
    ensures AddGraph(EmptyFlat, Colliding(), "").nodes == [Node("-s-a", "/agent"), Node("-s-a", "/other")]
  {
    FlatNames(Colliding());
    CollidingLeaves();
    var nodes := Leaves(Colliding().nodes, "");
    assert nodes[0].name == nodes[1].name;
  }

  // ------------------------------------------------------------------ an edge that another subgraph catches

  function Exporting(): Level {
    Level(false, [Child("a", "A", Leaf("/agent"))], [], [], [ExtIn("in", "in", None, "a")], [])
  }

  function Middle(): Level {
    Level(false, [Child("t", "T", Sub(Exporting()))], [], [], [], [])
  }

  /** Subgraph `t` of subgraph `s`, beside an agent `s-t`; the one edge goes to the agent. */
  function Mixed(): Level {
    Level(false, [Child("x", "X", Leaf("/x")), Child("s-t", "B", Leaf("/other")), Child("s", "S", Sub(Middle()))],
          [Edge("x", "out", None, "in", None, "s-t")], [], [], [])
  }

  lemma {:induction false} MixedFlat()
    ensures AddGraph(EmptyFlat, Mixed(), "").edges == [Edge("-x", "out", None, "in", None, "-s-t-a")]
  {
    var cs := Mixed().nodes;
    var e := Edge("-x", "out", None, "in", None, "-s-t");
    assert Join("", "x") == "-x" && Join("", "s-t") == "-s-t" && Join("", "s") == "-s" && Join("-s", "t") == "-s-t";
    assert Join("-s-t", "a") == "-s-t-a";
    var f1 := Open(EmptyFlat, Mixed(), "");
    assert f1.edges == [e] by { assert PrefixEdges("", Mixed().edges) == [e]; }
    var f2 := AddNode(AddNode(f1, cs[0], ""), cs[1], "");
    var f3 := Open(f2, Middle(), "-s");
    assert f3.edges == [e] by { assert PrefixEdges("-s", []) == []; }
    var f4 := Open(f3, Exporting(), "-s-t");
    var x := ExtIn("in", "in", None, "a");
    assert f4.edges == [EnterEdge("-s-t", x, e)] by {
      assert PrefixEdges("-s-t", []) == [] && Exporting().extIn[1..] == [];
      assert EnterAll("-s-t", x, [e]) == [EnterEdge("-s-t", x, e)];
    }
    var f5 := AddNode(f4, Exporting().nodes[0], "-s-t");
    assert Exporting().nodes[1..] == [] && Middle().nodes[1..] == [];
    assert AddNodes(f4, Exporting().nodes, "-s-t") == f5;
    assert AddNodes(f3, Middle().nodes, "-s") == f5;
    assert cs[1..][0] == cs[1] && cs[1..][1..] == [cs[2]] && cs[1..][1..][1..] == [];
    assert AddNodes(f1, cs, "") == AddNodes(f2, [cs[2]], "");
  }

  lemma {:induction false} MixedMeant()
    ensures AllEdges(Mixed(), "") == [Edge("-x", "out", None, "in", None, "-s-t")]
  {
    var cs := Mixed().nodes;
    assert Join("", "x") == "-x" && Join("", "s-t") == "-s-t";
    assert FindSub(cs, "x").None?;
    assert |"x"| == 1 && |"s-t"| == 3;
    assert FindSub(cs[1..], "s-t").None? && FindSub(cs, "s-t").None?;
    assert Exporting().nodes[1..] == [] && Middle().nodes[1..] == [];
    assert AllEdges(Exporting(), "-s-t") == [];
    assert AllEdges(Middle(), "-s") == [] by { assert Join("-s", "t") == "-s-t"; }
    assert cs[1..][0] == cs[1] && cs[1..][1..] == [cs[2]] && cs[1..][1..][1..] == [];
    assert ChildEdges(cs, "") == [] by { assert Join("", "s") == "-s"; }
  }

  lemma {:induction false} MiddleAgents()
    ensures AgentPaths(Middle().nodes) == {Join("t", "a")} && PathsApart(Middle().nodes)
  {
    assert Exporting().nodes[1..] == [] && Middle().nodes[1..] == [];
    assert AgentPaths(Exporting().nodes) == {"a"};
    assert Below("t", {"a"}) == {Join("t", "a")};
  }

  lemma {:induction false} MixedApart()
    ensures PathsApart(Mixed().nodes)
  {
    var cs := Mixed().nodes;
    MiddleAgents();
    assert cs[1..][0] == cs[1] && cs[1..][1..] == [cs[2]] && cs[1..][1..][1..] == [];
    var deep := Join("s", Join("t", "a"));
    assert AgentsInside(cs[2]) == {deep};
    assert AgentPaths([cs[2]]) == {deep} && AgentPaths(cs[1..]) == {"s-t", deep};
    assert |deep| == 5 && |"s-t"| == 3 && |"x"| == 1;
  }

  /** Distinct agent names are not enough: the edge ends up at an agent of the subgraph. */
  lemma EdgeMisled()
    ensures PathsApart(Mixed().nodes) && !WellNamed(Mixed())
    ensures AddGraph(EmptyFlat, Mixed(), "").edges != AllEdges(Mixed(), "")
  {
    MixedFlat();
    MixedMeant();
    MixedApart();
    var e := Edge("-x", "out", None, "in", None, "-s-t");
    assert |"-s-t"| == 4 && |"-s-t-a"| == 6;
    assert [e][0].inComp == "-s-t";
    if WellNamed(Mixed()) {
      FlatteningPreservesMeaning(Mixed());
    }
  }
}
