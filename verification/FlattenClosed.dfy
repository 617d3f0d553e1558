// Subgraphs fall away: when every level passes the graph check and exports the ports used on it, the flat
// edges join agents of the flat node list. The flat names are distinct exactly when no two agents share a path.
module FlattenClosed {
  import opened Wrappers
  import opened Graph
  import opened Flatten
  import opened FlattenNames
  import opened FlattenProofs
  import Checker

  // ------------------------------------------------------------------ the flat node list

  /** The agents of every level under their full names, in the order the pass meets them. */
  function Leaves(cs: seq<Child>, path: string): seq<Node>
    decreases cs, 0
  {
    if cs == [] then [] else NodeLeaves(cs[0], path) + Leaves(cs[1..], path)
  }

  function NodeLeaves(c: Child, path: string): seq<Node>
    decreases c, 0
  {
    match c.unit
    case Missing => []
    case Leaf(p) => [Node(Join(path, c.name), p)]
    case Sub(g) => Leaves(g.nodes, Join(path, c.name))
  }

  lemma {:induction false} AddNodesLeaves(f: Flat, cs: seq<Child>, path: string)
    ensures AddNodes(f, cs, path).nodes == f.nodes + Leaves(cs, path)
    decreases cs, 0
  {
    if cs != [] {
      AddNodeLeaves(f, cs[0], path);
      AddNodesLeaves(AddNode(f, cs[0], path), cs[1..], path);
    }
  }

  lemma {:induction false} AddNodeLeaves(f: Flat, c: Child, path: string)
    ensures AddNode(f, c, path).nodes == f.nodes + NodeLeaves(c, path)
    decreases c, 0
  {
    if c.unit.Sub? {
      AddGraphLeaves(f, c.unit.graph, Join(path, c.name));
    }
  }

  lemma {:induction false} AddGraphLeaves(f: Flat, g: Level, path: string)
    ensures AddGraph(f, g, path).nodes == f.nodes + Leaves(g.nodes, path)
    decreases g, 1
  {
    OpenCarries(f, g, path);
    AddNodesLeaves(Open(f, g, path), g.nodes, path);
  }

  predicate Named(ns: seq<Node>, name: string) {
    exists k :: 0 <= k < |ns| && ns[k].name == name
  }

  lemma NamedConcat(ns: seq<Node>, ms: seq<Node>, name: string)
    ensures Named(ns + ms, name) <==> Named(ns, name) || Named(ms, name)
  {
    if Named(ns, name) {
      var k :| 0 <= k < |ns| && ns[k].name == name;
      assert (ns + ms)[k].name == name;
    }
    if Named(ms, name) {
      var k :| 0 <= k < |ms| && ms[k].name == name;
      assert (ns + ms)[|ns| + k].name == name;
    }
  }

  // ------------------------------------------------------------------ the paths of the agents

  /** The paths of the agents of a level and below, seen from the level. */
  function AgentPaths(cs: seq<Child>): set<string>
    decreases cs, 0
  {
    if cs == [] then {} else AgentsInside(cs[0]) + AgentPaths(cs[1..])
  }

  function AgentsInside(c: Child): set<string>
    decreases c, 0
  {
    match c.unit
    case Missing => {}
    case Leaf(_) => {c.name}
    case Sub(g) => Below(c.name, AgentPaths(g.nodes))
  }

  lemma {:induction false} LeavesAmong(cs: seq<Child>, path: string, s: string)
    ensures Named(Leaves(cs, path), s) <==> Among(AgentPaths(cs), path, s)
    decreases cs, 0
  {
    if cs != [] {
      NamedConcat(NodeLeaves(cs[0], path), Leaves(cs[1..], path), s);
      NodeLeavesAmong(cs[0], path, s);
      LeavesAmong(cs[1..], path, s);
    }
  }

  lemma {:induction false} NodeLeavesAmong(c: Child, path: string, s: string)
    ensures Named(NodeLeaves(c, path), s) <==> Among(AgentsInside(c), path, s)
    decreases c, 0
  {
    match c.unit
    case Missing =>
    case Leaf(p) => assert Named([Node(Join(path, c.name), p)], s) <==> s == Join(path, c.name) by {
        assert [Node(Join(path, c.name), p)][0].name == Join(path, c.name);
      }
    case Sub(g) =>
      LeavesAmong(g.nodes, Join(path, c.name), s);
      AmongBelow(c.name, AgentPaths(g.nodes), path, s);
  }

  lemma {:induction false} AgentsArePaths(cs: seq<Child>)
    ensures AgentPaths(cs) <= NodePaths(cs)
    decreases cs, 0
  {
    if cs != [] {
      AgentsArePathsInside(cs[0]);
      AgentsArePaths(cs[1..]);
    }
  }

  lemma {:induction false} AgentsArePathsInside(c: Child)
    ensures AgentsInside(c) <= Inside(c)
    decreases c, 0
  {
    if c.unit.Sub? {
      AgentsArePaths(c.unit.graph.nodes);
    }
  }

  lemma {:induction false} AgentIn(cs: seq<Child>, q: string)
    requires q in AgentPaths(cs)
    ensures exists k :: 0 <= k < |cs| && q in AgentsInside(cs[k])
  {
    if q !in AgentsInside(cs[0]) {
      AgentIn(cs[1..], q);
      var k :| 0 <= k < |cs[1..]| && q in AgentsInside(cs[1..][k]);
      assert cs[k + 1] == cs[1..][k];
    }
  }

  lemma {:induction false} AgentAt(cs: seq<Child>, k: nat)
    requires k < |cs|
    ensures AgentsInside(cs[k]) <= AgentPaths(cs)
    decreases k
  {
    if k > 0 {
      AgentAt(cs[1..], k - 1);
    }
  }

  // ------------------------------------------------------------------ distinct names

  predicate DistinctNodes(ns: seq<Node>) {
    forall k, l :: 0 <= k < l < |ns| ==> ns[k].name != ns[l].name
  }

  lemma DistinctConcat(ns: seq<Node>, ms: seq<Node>)
    requires DistinctNodes(ns) && DistinctNodes(ms)
    requires forall s :: Named(ns, s) ==> !Named(ms, s)
    ensures DistinctNodes(ns + ms)
  {
    var all := ns + ms;
    forall k, l | 0 <= k < l < |all| ensures all[k].name != all[l].name {
      if k < |ns| <= l {
        assert Named(ns, ns[k].name);
        assert ms[l - |ns|].name == all[l].name;
      }
    }
  }

  /** No two agents of the hierarchy have the same path. */
  predicate PathsApart(cs: seq<Child>)
    decreases cs, 0
  {
    cs != [] ==>
      && AgentsInside(cs[0]) !! AgentPaths(cs[1..])
      && (cs[0].unit.Sub? ==> PathsApart(cs[0].unit.graph.nodes))
      && PathsApart(cs[1..])
  }

  lemma DistinctConcatIff(ns: seq<Node>, ms: seq<Node>)
    ensures DistinctNodes(ns + ms) <==> DistinctNodes(ns) && DistinctNodes(ms) && forall s :: Named(ns, s) ==> !Named(ms, s)
  {
    var all := ns + ms;
    if DistinctNodes(all) {
      forall k, l | 0 <= k < l < |ns| ensures ns[k].name != ns[l].name {
        assert all[k] == ns[k] && all[l] == ns[l];
      }
      forall k, l | 0 <= k < l < |ms| ensures ms[k].name != ms[l].name {
        assert all[|ns| + k] == ms[k] && all[|ns| + l] == ms[l];
      }
      forall s | Named(ns, s) ensures !Named(ms, s) {
        var k :| 0 <= k < |ns| && ns[k].name == s;
        forall l | 0 <= l < |ms| ensures ms[l].name != s {
          assert all[k] == ns[k] && all[|ns| + l] == ms[l];
        }
      }
    }
    if DistinctNodes(ns) && DistinctNodes(ms) && forall s :: Named(ns, s) ==> !Named(ms, s) {
      DistinctConcat(ns, ms);
    }
  }

  lemma NamedApartIff(these: set<string>, those: set<string>, path: string)
    ensures these !! those <==> forall s :: Among(these, path, s) ==> !Among(those, path, s)
  {
    if these !! those {
      forall s | Among(these, path, s) ensures !Among(those, path, s) {
        AmongOne(these, those, path, s);
      }
    } else {
      var q :| q in these && q in those;
      assert Among(these, path, Join(path, q)) && Among(those, path, Join(path, q));
    }
  }

  lemma {:induction false} DistinctIff(cs: seq<Child>, path: string)
    ensures DistinctNodes(Leaves(cs, path)) <==> PathsApart(cs)
    decreases cs, 0
  {
    if cs != [] {
      var c, rest := cs[0], cs[1..];
      DistinctConcatIff(NodeLeaves(c, path), Leaves(rest, path));
      forall s ensures Named(NodeLeaves(c, path), s) <==> Among(AgentsInside(c), path, s) {
        NodeLeavesAmong(c, path, s);
      }
      forall s ensures Named(Leaves(rest, path), s) <==> Among(AgentPaths(rest), path, s) {
        LeavesAmong(rest, path, s);
      }
      NamedApartIff(AgentsInside(c), AgentPaths(rest), path);
      if c.unit.Sub? {
        DistinctIff(c.unit.graph.nodes, Join(path, c.name));
      }
      DistinctIff(rest, path);
    }
  }

  lemma {:induction false} WellNamedApart(cs: seq<Child>)
    requires WellNamedNodes(cs)
    ensures PathsApart(cs)
    decreases cs, 0
  {
    if cs != [] {
      AgentsArePathsInside(cs[0]);
      AgentsArePaths(cs[1..]);
      if cs[0].unit.Sub? {
        WellNamedApart(cs[0].unit.graph.nodes);
      }
      WellNamedApart(cs[1..]);
    }
  }

  /** The flat node list holds the agents of all levels; their names are pairwise distinct if and only if no two agents
      have the same path, as in every well-named hierarchy. */
  lemma {:induction false} FlatNames(g: Level)
    ensures var nodes := AddGraph(EmptyFlat, g, "").nodes;
      nodes == Leaves(g.nodes, "") && (DistinctNodes(nodes) <==> PathsApart(g.nodes))
    ensures WellNamed(g) ==> PathsApart(g.nodes)
  {
    AddGraphLeaves(EmptyFlat, g, "");
    DistinctIff(g.nodes, "");
    if WellNamed(g) {
      WellNamedApart(g.nodes);
    }
  }

  // ------------------------------------------------------------------ where an endpoint leads

  /** Following exported ports from `comp.port` ends at an agent. */
  predicate Leads(side: Side, cs: seq<Child>, comp: string, port: string)
    decreases cs
  {
    exists k :: 0 <= k < |cs| && cs[k].name == comp &&
      match cs[k].unit
      case Missing => false
      case Leaf(_) => true
      case Sub(g) =>
        var x := FirstExport(ExportsOf(g, side), port);
        x.Some? && Leads(side, g.nodes, x.value.comp, x.value.inner)
  }

  lemma {:induction false} FindSubAt(cs: seq<Child>, k: nat)
    requires k < |cs| && WellNamedNodes(cs)
    ensures FindSub(cs, cs[k].name) == if cs[k].unit.Sub? then Some(cs[k].unit.graph) else None
    ensures Reach(cs, cs[k].name) == Inside(cs[k])
    decreases k
  {
    if k > 0 {
      NodesApart(cs, 0, k);
      FindSubAt(cs[1..], k - 1);
    }
  }

  lemma SameNode(cs: seq<Child>, k: nat, l: nat)
    requires WellNamedNodes(cs) && k < |cs| && l < |cs| && Inside(cs[k]) * Inside(cs[l]) != {}
    ensures k == l
  {
    if k < l {
      NodesApart(cs, k, l);
    } else if l < k {
      NodesApart(cs, l, k);
    }
  }

  lemma OwnNameInside(c: Child)
    requires c.name in AgentsInside(c)
    ensures c.unit.Leaf?
  {
    if c.unit.Sub? {
      forall q ensures c.name != Join(c.name, q) {
        JoinDiffers(c.name, q);
      }
    }
  }

  lemma {:induction false} NoLeafHere(cs: seq<Child>, path: string, comp: string)
    requires Clear(cs, comp)
    requires forall k :: 0 <= k < |cs| && cs[k].name == comp ==> !cs[k].unit.Leaf?
    ensures !Named(Leaves(cs, path), Join(path, comp))
  {
    LeavesAmong(cs, path, Join(path, comp));
    AmongJoin(AgentPaths(cs), path, comp);
    if comp in AgentPaths(cs) {
      AgentIn(cs, comp);
      var k :| 0 <= k < |cs| && comp in AgentsInside(cs[k]);
      AgentsArePathsInside(cs[k]);
      OwnNameInside(cs[k]);
    }
  }

  /** An endpoint resolves to an agent of the flat list exactly when following exported ports leads to one. */
  lemma {:induction false} ResolvesIffLeads(side: Side, cs: seq<Child>, path: string, comp: string, port: string, elem: Option<string>)
    requires WellNamedNodes(cs) && Clear(cs, comp)
    ensures Named(Leaves(cs, path), Resolve(side, cs, path, comp, port, elem).comp) <==> Leads(side, cs, comp, port)
    decreases cs
  {
    if exists k :: 0 <= k < |cs| && cs[k].name == comp {
      var k :| 0 <= k < |cs| && cs[k].name == comp;
      FindSubAt(cs, k);
      OnlyNode(cs, k);
      match cs[k].unit
      case Missing => NoLeafHere(cs, path, comp);
      case Leaf(p) =>
        AgentAt(cs, k);
        LeavesAmong(cs, path, Join(path, comp));
      case Sub(g) => SubResolvesIffLeads(side, cs, path, k, port, elem);
    } else {
      assert FindSub(cs, comp).None?;
      NoLeafHere(cs, path, comp);
    }
  }

  lemma OnlyNode(cs: seq<Child>, k: nat)
    requires WellNamedNodes(cs) && k < |cs|
    ensures forall l :: 0 <= l < |cs| && cs[l].name == cs[k].name ==> l == k
  {
    forall l | 0 <= l < |cs| && cs[l].name == cs[k].name ensures l == k {
      assert cs[k].name in Inside(cs[k]) * Inside(cs[l]);
      SameNode(cs, k, l);
    }
  }

  lemma NodeIsClear(cs: seq<Child>, k: nat)
    requires WellNamedNodes(cs) && k < |cs|
    ensures Clear(cs, cs[k].name)
  {
    forall l | 0 <= l < |cs| && cs[k].name in Inside(cs[l]) ensures cs[l].name == cs[k].name {
      assert cs[k].name in Inside(cs[k]) * Inside(cs[l]);
      SameNode(cs, k, l);
    }
  }

  /** A name below node k is an agent of the level exactly when it is one inside node k. */
  lemma {:induction false} NamedInside(cs: seq<Child>, path: string, k: nat, s: string)
    requires WellNamedNodes(cs) && k < |cs| && Among(Inside(cs[k]), path, s)
    ensures Named(Leaves(cs, path), s) <==> Named(NodeLeaves(cs[k], path), s)
  {
    LeavesAmong(cs, path, s);
    NodeLeavesAmong(cs[k], path, s);
    AgentAt(cs, k);
    if Among(AgentPaths(cs), path, s) {
      var q :| q in AgentPaths(cs) && s == Join(path, q);
      AmongJoin(Inside(cs[k]), path, q);
      AgentIn(cs, q);
      var l :| 0 <= l < |cs| && q in AgentsInside(cs[l]);
      AgentsArePathsInside(cs[l]);
      assert q in Inside(cs[k]) * Inside(cs[l]);
      SameNode(cs, k, l);
    }
  }

  lemma {:induction false} LeadsInto(side: Side, cs: seq<Child>, k: nat, port: string)
    requires WellNamedNodes(cs) && k < |cs| && cs[k].unit.Sub?
    ensures var x := FirstExport(ExportsOf(cs[k].unit.graph, side), port);
      Leads(side, cs, cs[k].name, port) <==> x.Some? && Leads(side, cs[k].unit.graph.nodes, x.value.comp, x.value.inner)
  {
    OnlyNode(cs, k);
  }

  lemma {:induction false} SubResolvesIffLeads(side: Side, cs: seq<Child>, path: string, k: nat, port: string, elem: Option<string>)
    requires WellNamedNodes(cs) && k < |cs| && cs[k].unit.Sub?
    ensures Named(Leaves(cs, path), Resolve(side, cs, path, cs[k].name, port, elem).comp) <==> Leads(side, cs, cs[k].name, port)
    decreases cs, 0
  {
    var comp, g := cs[k].name, cs[k].unit.graph;
    FindSubAt(cs, k);
    NodeAt(cs, k);
    LeadsInto(side, cs, k, port);
    var x := FirstExport(ExportsOf(g, side), port);
    if x.None? {
      OnlyNode(cs, k);
      NodeIsClear(cs, k);
      NoLeafHere(cs, path, comp);
    } else {
      ExportUsed(g, side, port);
      ResolveReach(side, cs, path, comp, port, elem);
      NamedInside(cs, path, k, Resolve(side, cs, path, comp, port, elem).comp);
      ResolvesIffLeads(side, g.nodes, Join(path, comp), x.value.comp, x.value.inner, Select(x.value.sel, elem));
    }
  }

  // ------------------------------------------------------------------ checked hierarchies

  /** The graph of a level as the checker sees it. */
  function AsGraph(g: Level): CoreGraph {
    CoreGraph(seq(|g.nodes|, k requires 0 <= k < |g.nodes| => Node(g.nodes[k].name, g.nodes[k].sort)),
              g.edges, g.imsgs, g.extIn, g.extOut)
  }

  predicate IsNode(cs: seq<Child>, name: string) {
    exists k :: 0 <= k < |cs| && cs[k].name == name
  }

  /** `port` of node `comp`, if that is a subgraph, is one it exports. */
  predicate PortExported(side: Side, cs: seq<Child>, comp: string, port: string) {
    forall k :: 0 <= k < |cs| && cs[k].name == comp && cs[k].unit.Sub? ==> FirstExport(ExportsOf(cs[k].unit.graph, side), port).Some?
  }

  predicate ExportsClosed(g: Level, side: Side) {
    forall x :: x in ExportsOf(g, side) ==> IsNode(g.nodes, x.comp) && PortExported(side, g.nodes, x.comp, x.inner)
  }

  /** Every level passes the graph check with sorted nodes that exist, and whatever it uses or exports of a
      subgraph is exported there to a declared node. */
  predicate Checked(g: Level)
    decreases g, 1
  {
    && Checker.Accepted(AsGraph(g))
    && (forall k :: 0 <= k < |g.nodes| ==> g.nodes[k].sort != "")
    && (forall k :: 0 <= k < |g.edges| ==>
          PortExported(In, g.nodes, g.edges[k].inComp, g.edges[k].inPort)
          && PortExported(Out, g.nodes, g.edges[k].outComp, g.edges[k].outPort))
    && ExportsClosed(g, In) && ExportsClosed(g, Out)
    && CheckedNodes(g.nodes)
  }

  predicate CheckedNodes(cs: seq<Child>)
    decreases cs, 0
  {
    cs != [] ==> !cs[0].unit.Missing? && (cs[0].unit.Sub? ==> Checked(cs[0].unit.graph)) && CheckedNodes(cs[1..])
  }

  lemma {:induction false} CheckedAt(cs: seq<Child>, k: nat)
    requires CheckedNodes(cs) && k < |cs|
    ensures !cs[k].unit.Missing? && (cs[k].unit.Sub? ==> Checked(cs[k].unit.graph))
    decreases k
  {
    if k > 0 {
      CheckedAt(cs[1..], k - 1);
    }
  }

  lemma {:induction false} CheckedLeads(side: Side, cs: seq<Child>, comp: string, port: string)
    requires (side == In || side == Out) && CheckedNodes(cs) && IsNode(cs, comp) && PortExported(side, cs, comp, port)
    ensures Leads(side, cs, comp, port)
    decreases cs
  {
    var k :| 0 <= k < |cs| && cs[k].name == comp;
    CheckedAt(cs, k);
    if cs[k].unit.Sub? {
      var g := cs[k].unit.graph;
      var x := FirstExport(ExportsOf(g, side), port).value;
      FirstExportIn(ExportsOf(g, side), port);
      CheckedLeads(side, g.nodes, x.comp, x.inner);
    }
  }

  lemma DeclaredIsNode(g: Level, name: string)
    requires Checker.DeclaresNode(AsGraph(g), name)
    ensures IsNode(g.nodes, name)
  {
    var k :| 0 <= k < |AsGraph(g).nodes| && AsGraph(g).nodes[k].name == name;
    assert g.nodes[k].name == name;
  }

  predicate EdgeClosed(ns: seq<Node>, e: Edge) {
    Named(ns, e.inComp) && Named(ns, e.outComp)
  }

  lemma ClosedConcat(ns: seq<Node>, ms: seq<Node>, e: Edge)
    requires EdgeClosed(ns, e) || EdgeClosed(ms, e)
    ensures EdgeClosed(ns + ms, e)
  {
    NamedConcat(ns, ms, e.inComp);
    NamedConcat(ns, ms, e.outComp);
  }

  lemma OwnEdgeClosed(g: Level, path: string, e: Edge)
    requires WellNamed(g) && Checked(g) && e in g.edges
    ensures EdgeClosed(Leaves(g.nodes, path), ResolveEdge(g, path, e))
  {
    var k :| 0 <= k < |g.edges| && g.edges[k] == e;
    assert AsGraph(g).edges[k] == e;
    DeclaredIsNode(g, e.inComp);
    DeclaredIsNode(g, e.outComp);
    CheckedLeads(In, g.nodes, e.inComp, e.inPort);
    CheckedLeads(Out, g.nodes, e.outComp, e.outPort);
    ResolvesIffLeads(In, g.nodes, path, e.inComp, e.inPort, e.inElem);
    ResolvesIffLeads(Out, g.nodes, path, e.outComp, e.outPort, e.outElem);
  }

  lemma {:induction false} AllEdgesClosed(g: Level, path: string)
    requires WellNamed(g) && Checked(g)
    ensures forall e :: e in AllEdges(g, path) ==> EdgeClosed(Leaves(g.nodes, path), e)
    decreases g, 1
  {
    ChildEdgesClosed(g.nodes, path);
    forall e | e in ResolveEdges(g, path, g.edges) ensures EdgeClosed(Leaves(g.nodes, path), e) {
      var k :| 0 <= k < |g.edges| && e == ResolveEdge(g, path, g.edges[k]);
      OwnEdgeClosed(g, path, g.edges[k]);
    }
  }

  lemma {:induction false} ChildEdgesClosed(cs: seq<Child>, path: string)
    requires WellNamedNodes(cs) && CheckedNodes(cs)
    ensures forall e :: e in ChildEdges(cs, path) ==> EdgeClosed(Leaves(cs, path), e)
    decreases cs, 0
  {
    if cs != [] {
      ChildEdgesClosed(cs[1..], path);
      if cs[0].unit.Sub? {
        AllEdgesClosed(cs[0].unit.graph, Join(path, cs[0].name));
      }
      assert ChildEdges(cs, path) == NewEdges(cs[0], path) + ChildEdges(cs[1..], path);
      forall e | e in ChildEdges(cs, path) ensures EdgeClosed(Leaves(cs, path), e) {
        ClosedConcat(NodeLeaves(cs[0], path), Leaves(cs[1..], path), e);
      }
    }
  }

  /** Subgraphs fall away: after flattening a checked hierarchy every endpoint of every edge is an entry of the flat
      node list. */
  lemma {:induction false} SubgraphsFallAway(g: Level)
    requires WellNamed(g) && Checked(g)
    ensures var f := AddGraph(EmptyFlat, g, "");
      DistinctNodes(f.nodes) && forall e :: e in f.edges ==> EdgeClosed(f.nodes, e)
  {
    FlatNames(g);
    FlatteningPreservesMeaning(g);
    AllEdgesClosed(g, "");
  }
}
