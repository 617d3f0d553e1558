// What add_graph means: every endpoint is resolved, level by level, down to the agent behind it. The pass
// rewrites all edges of the flat graph again and again, at every level it opens; the proof follows one
// endpoint through all of it.
module FlattenProofs {
  import opened Wrappers
  import opened Graph
  import opened Flatten
  import opened FlattenNames

  /** Receiving ends, sending ends, and the ends of initial messages, which the pass looks up by inner name. Meant is
      what the ends of initial messages should be looked up by. */
  datatype Side = In | Out | Initial | Meant

  /** An endpoint in the flat graph: a port, or an element of an array port. */
  datatype End = End(comp: string, port: string, elem: Option<string>)

  /** What happens to the element selector: edges keep theirs, messages get the one of the exported port. */
  datatype Selector = Keep | Take(elem: Option<string>)

  function Select(x: Selector, elem: Option<string>): Option<string> {
    if x.Keep? then elem else x.elem
  }

  /** An exported port, seen from one side: `port` outside is `inner` of component `comp` inside. */
  datatype Export = Export(port: string, inner: string, comp: string, sel: Selector)

  function ExportsOf(g: Level, side: Side): seq<Export> {
    match side
    case In => seq(|g.extIn|, k requires 0 <= k < |g.extIn| => Export(g.extIn[k].port, g.extIn[k].inPort, g.extIn[k].inComp, Keep))
    case Out => seq(|g.extOut|, k requires 0 <= k < |g.extOut| => Export(g.extOut[k].port, g.extOut[k].outPort, g.extOut[k].outComp, Keep))
    case Initial => Inner(g.extIn)
    case Meant =>
      seq(|g.extIn|, k requires 0 <= k < |g.extIn| =>
        Export(g.extIn[k].port, g.extIn[k].inPort, g.extIn[k].inComp, Take(g.extIn[k].inElem)))
  }

  function Inner(xs: seq<ExtIn>): seq<Export> {
    seq(|xs|, k requires 0 <= k < |xs| => Export(xs[k].inPort, xs[k].inPort, xs[k].inComp, Take(xs[k].inElem)))
  }

  // ------------------------------------------------------------------ the specification: resolution

  /** The subgraph a component name stands for, if it does. */
  function FindSub(cs: seq<Child>, name: string): (r: Option<Level>)
    ensures r.Some? ==> exists k :: 0 <= k < |cs| && cs[k].name == name && cs[k].unit == Sub(r.value)
  {
    if cs == [] then None
    else if cs[0].name == name then (if cs[0].unit.Sub? then Some(cs[0].unit.graph) else None)
    else
      var r := FindSub(cs[1..], name);
      assert forall k :: 1 <= k < |cs| ==> cs[k] == cs[1..][k - 1];
      assert r.Some? ==> exists k :: 1 <= k < |cs| && cs[k].name == name && cs[k].unit == Sub(r.value) by {
        if r.Some? {
          var k :| 0 <= k < |cs[1..]| && cs[1..][k].name == name && cs[1..][k].unit == Sub(r.value);
          assert cs[k + 1] == cs[1..][k];
        }
      }
      r
  }

  function FirstExport(xs: seq<Export>, port: string): Option<Export> {
    if xs == [] then None else if xs[0].port == port then Some(xs[0]) else FirstExport(xs[1..], port)
  }

  /** Component `comp` of the graph with nodes `cs` at `path`: itself if it is an agent; else whatever the exported
      port leads to inside. A port that the subgraph does not export stays where it is. */
  function Resolve(side: Side, cs: seq<Child>, path: string, comp: string, port: string, elem: Option<string>): End
    decreases cs
  {
    match FindSub(cs, comp)
    case None => End(Join(path, comp), port, elem)
    case Some(g) =>
      match FirstExport(ExportsOf(g, side), port)
      case None => End(Join(path, comp), port, elem)
      case Some(x) =>
        assert exists k :: 0 <= k < |cs| && cs[k].name == comp && cs[k].unit == Sub(g);
        Resolve(side, g.nodes, Join(path, comp), x.comp, x.inner, Select(x.sel, elem))
  }

  function ResolveEdge(g: Level, path: string, e: Edge): Edge {
    var i := Resolve(In, g.nodes, path, e.inComp, e.inPort, e.inElem);
    var o := Resolve(Out, g.nodes, path, e.outComp, e.outPort, e.outElem);
    Edge(o.comp, o.port, o.elem, i.port, i.elem, i.comp)
  }

  function ResolveEdges(g: Level, path: string, es: seq<Edge>): seq<Edge> {
    seq(|es|, k requires 0 <= k < |es| => ResolveEdge(g, path, es[k]))
  }

  /** The edges of every level, parents before children, each resolved at its own level. */
  function AllEdges(g: Level, path: string): seq<Edge>
    decreases g, 1
  {
    ResolveEdges(g, path, g.edges) + ChildEdges(g.nodes, path)
  }

  function ChildEdges(cs: seq<Child>, path: string): seq<Edge>
    decreases cs, 0
  {
    if cs == [] then []
    else (if cs[0].unit.Sub? then AllEdges(cs[0].unit.graph, Join(path, cs[0].name)) else []) + ChildEdges(cs[1..], path)
  }

  // ------------------------------------------------------------------ one endpoint through the pass

  function Touch(x: Export, path: string, e: End): End {
    if e.comp == path && e.port == x.port then End(Join(path, x.comp), x.inner, Select(x.sel, e.elem)) else e
  }

  function TouchAll(xs: seq<Export>, path: string, e: End): End
    decreases |xs|
  {
    if xs == [] then e else TouchAll(xs[1..], path, Touch(xs[0], path, e))
  }

  /** What adding `g` at `path` does to an endpoint that is already in the flat graph. */
  function Thru(side: Side, g: Level, path: string, e: End): End
    decreases g, 1
  {
    ThruNodes(side, g.nodes, path, TouchAll(ExportsOf(g, side), path, e))
  }

  function ThruNode(side: Side, c: Child, path: string, e: End): End
    decreases c, 0
  {
    if c.unit.Sub? then Thru(side, c.unit.graph, Join(path, c.name), e) else e
  }

  function ThruNodes(side: Side, cs: seq<Child>, path: string, e: End): End
    decreases cs, 0
  {
    if cs == [] then e else ThruNodes(side, cs[1..], path, ThruNode(side, cs[0], path, e))
  }

  lemma {:induction false} TouchAllIsFirst(xs: seq<Export>, path: string, e: End)
    ensures TouchAll(xs, path, e) ==
      if e.comp == path && FirstExport(xs, e.port).Some?
      then var x := FirstExport(xs, e.port).value; End(Join(path, x.comp), x.inner, Select(x.sel, e.elem))
      else e
    decreases |xs|
  {
    if xs != [] {
      TouchAllIsFirst(xs[1..], path, Touch(xs[0], path, e));
      JoinDiffers(path, xs[0].comp);
    }
  }

  /** Adding a graph at a path leaves endpoints alone that are not below that path. */
  lemma {:induction false} ThruOutside(side: Side, g: Level, path: string, e: End)
    requires e.comp != path && !Among(Paths(g), path, e.comp)
    ensures Thru(side, g, path, e) == e
    decreases g, 1
  {
    TouchAllIsFirst(ExportsOf(g, side), path, e);
    ThruNodesOutside(side, g.nodes, path, e);
  }

  lemma {:induction false} ThruNodesOutside(side: Side, cs: seq<Child>, path: string, e: End)
    requires !Among(NodePaths(cs), path, e.comp)
    ensures ThruNodes(side, cs, path, e) == e
    decreases cs, 0
  {
    if cs != [] {
      ThruNodeOutside(side, cs[0], path, e);
      ThruNodesOutside(side, cs[1..], path, e);
    }
  }

  lemma {:induction false} ThruNodeOutside(side: Side, c: Child, path: string, e: End)
    requires !Among(Inside(c), path, e.comp)
    ensures ThruNode(side, c, path, e) == e
    decreases c, 0
  {
    if c.unit.Sub? {
      AmongJoin(Inside(c), path, c.name);
      AmongBelow(c.name, Paths(c.unit.graph), path, e.comp);
      ThruOutside(side, c.unit.graph, Join(path, c.name), e);
    }
  }

  lemma ExportUsed(g: Level, side: Side, port: string)
    requires FirstExport(ExportsOf(g, side), port).Some?
    ensures FirstExport(ExportsOf(g, side), port).value.comp in Uses(g)
  {
    FirstExportIn(ExportsOf(g, side), port);
  }

  lemma {:induction false} FirstExportIn(xs: seq<Export>, port: string)
    ensures FirstExport(xs, port).Some? ==> FirstExport(xs, port).value in xs && FirstExport(xs, port).value.port == port
    ensures FirstExport(xs, port).None? ==> forall x :: x in xs ==> x.port != port
  {
    if xs != [] {
      FirstExportIn(xs[1..], port);
    }
  }

  lemma {:induction false} ReachSub(cs: seq<Child>, comp: string)
    requires FindSub(cs, comp).Some?
    ensures Reach(cs, comp) == {comp} + Below(comp, Paths(FindSub(cs, comp).value))
  {
    if cs[0].name != comp {
      ReachSub(cs[1..], comp);
    }
  }

  lemma {:induction false} ReachIn(cs: seq<Child>, comp: string)
    ensures Reach(cs, comp) <= {comp} + NodePaths(cs)
  {
    if cs != [] && cs[0].name != comp {
      ReachIn(cs[1..], comp);
    }
  }

  /** Resolved endpoints stay with the component they started from. */
  lemma {:induction false} ResolveReach(side: Side, cs: seq<Child>, path: string, comp: string, port: string, elem: Option<string>)
    ensures Among(Reach(cs, comp), path, Resolve(side, cs, path, comp, port, elem).comp)
    decreases cs
  {
    ReachNode(cs, comp);
    AmongJoin(Reach(cs, comp), path, comp);
    var sub := FindSub(cs, comp);
    if sub.Some? {
      var g := sub.value;
      var x := FirstExport(ExportsOf(g, side), port);
      if x.Some? {
        var k :| 0 <= k < |cs| && cs[k].name == comp && cs[k].unit == Sub(g);
        assert cs[k].unit < cs[k];
        ResolveExport(side, g, Join(path, comp), port, elem);
        AmongBelow(comp, Paths(g), path, Resolve(side, cs, path, comp, port, elem).comp);
        ReachSub(cs, comp);
      }
    }
  }

  lemma {:induction false} ResolveExport(side: Side, g: Level, path: string, port: string, elem: Option<string>)
    requires FirstExport(ExportsOf(g, side), port).Some?
    ensures var x := FirstExport(ExportsOf(g, side), port).value; Among(Paths(g), path, Resolve(side, g.nodes, path, x.comp, x.inner, Select(x.sel, elem)).comp)
    decreases g
  {
    var x := FirstExport(ExportsOf(g, side), port).value;
    ExportUsed(g, side, port);
    ResolveUsed(side, g, path, x.comp, x.inner, Select(x.sel, elem));
  }

  lemma {:induction false} ResolveUsed(side: Side, g: Level, path: string, comp: string, port: string, elem: Option<string>)
    requires comp in Uses(g)
    ensures Among(Paths(g), path, Resolve(side, g.nodes, path, comp, port, elem).comp)
    decreases g, 0
  {
    ResolveReach(side, g.nodes, path, comp, port, elem);
    ReachIn(g.nodes, comp);
  }

  /** The nodes of a level carry an endpoint of that level exactly to its resolution. */
  lemma {:induction false} ThruNodesResolves(side: Side, cs: seq<Child>, path: string, comp: string, port: string, elem: Option<string>)
    requires WellNamedNodes(cs) && Clear(cs, comp)
    ensures ThruNodes(side, cs, path, End(Join(path, comp), port, elem)) == Resolve(side, cs, path, comp, port, elem)
    decreases cs, 0
  {
    var e := End(Join(path, comp), port, elem);
    if cs != [] {
      if cs[0].name == comp {
        var r := Resolve(side, cs, path, comp, port, elem);
        if cs[0].unit.Sub? {
          ThruResolves(side, cs[0].unit.graph, Join(path, comp), port, elem);
        }
        ResolveReach(side, cs, path, comp, port, elem);
        SiblingsLeave(side, Inside(cs[0]), cs[1..], path, r);
      } else {
        AmongJoin(Inside(cs[0]), path, comp);
        ThruNodeOutside(side, cs[0], path, e);
        ClearTail(cs, comp);
        ThruNodesResolves(side, cs[1..], path, comp, port, elem);
        ResolveTail(side, cs, path, comp, port, elem);
      }
    }
  }

  lemma SiblingsLeave(side: Side, paths: set<string>, rest: seq<Child>, path: string, e: End)
    requires paths !! NodePaths(rest) && Among(paths, path, e.comp)
    ensures ThruNodes(side, rest, path, e) == e
  {
    AmongOne(paths, NodePaths(rest), path, e.comp);
    ThruNodesOutside(side, rest, path, e);
  }

  lemma {:induction false} ResolveTail(side: Side, cs: seq<Child>, path: string, comp: string, port: string, elem: Option<string>)
    requires cs != [] && cs[0].name != comp
    ensures Resolve(side, cs, path, comp, port, elem) == Resolve(side, cs[1..], path, comp, port, elem)
  {
  }

  /** Adding a graph carries an endpoint on the graph itself to what the exported port resolves to. */
  lemma {:induction false} ThruResolves(side: Side, g: Level, path: string, port: string, elem: Option<string>)
    requires WellNamed(g)
    ensures Thru(side, g, path, End(path, port, elem)) ==
      match FirstExport(ExportsOf(g, side), port)
      case None => End(path, port, elem)
      case Some(x) => Resolve(side, g.nodes, path, x.comp, x.inner, Select(x.sel, elem))
    decreases g, 1
  {
    TouchAllIsFirst(ExportsOf(g, side), path, End(path, port, elem));
    var x := FirstExport(ExportsOf(g, side), port);
    if x.Some? {
      ExportUsed(g, side, port);
      ThruNodesResolves(side, g.nodes, path, x.value.comp, x.value.inner, Select(x.value.sel, elem));
    } else {
      AmongHere(NodePaths(g.nodes), path);
      ThruNodesOutside(side, g.nodes, path, End(path, port, elem));
    }
  }

  lemma AmongHere(paths: set<string>, path: string)
    ensures !Among(paths, path, path)
  {
    forall q | q in paths ensures path != Join(path, q) {
      JoinDiffers(path, q);
    }
  }

  // ------------------------------------------------------------------ all the edges through the pass

  function InEnd(e: Edge): End {
    End(e.inComp, e.inPort, e.inElem)
  }

  function OutEnd(e: Edge): End {
    End(e.outComp, e.outPort, e.outElem)
  }

  function WithEnds(i: End, o: End): Edge {
    Edge(o.comp, o.port, o.elem, i.port, i.elem, i.comp)
  }

  /** A part of the pass: the exported ports of a level, a whole graph, one node, or several. */
  datatype Stage =
    | Touching(exports: seq<Export>, path: string)
    | Opening(g: Level, path: string)
    | Whole(g: Level, path: string)
    | One(c: Child, path: string)
    | Many(cs: seq<Child>, path: string)

  function Go(w: Stage, side: Side, e: End): End {
    match w
    case Touching(xs, path) => TouchAll(xs, path, e)
    case Opening(g, path) => TouchAll(ExportsOf(g, side), path, e)
    case Whole(g, path) => Thru(side, g, path, e)
    case One(c, path) => ThruNode(side, c, path, e)
    case Many(cs, path) => ThruNodes(side, cs, path, e)
  }

  function Carry(w: Stage, e: Edge): Edge {
    WithEnds(Go(w, In, InEnd(e)), Go(w, Out, OutEnd(e)))
  }

  function Mapped(es: seq<Edge>, w: Stage): seq<Edge> {
    seq(|es|, k requires 0 <= k < |es| => Carry(w, es[k]))
  }

  function ExportIn(x: ExtIn): Export {
    Export(x.port, x.inPort, x.inComp, Keep)
  }

  function ExportOut(x: ExtOut): Export {
    Export(x.port, x.outPort, x.outComp, Keep)
  }

  function ExportsIn(xs: seq<ExtIn>): seq<Export> {
    seq(|xs|, k requires 0 <= k < |xs| => ExportIn(xs[k]))
  }

  function ExportsOut(xs: seq<ExtOut>): seq<Export> {
    seq(|xs|, k requires 0 <= k < |xs| => ExportOut(xs[k]))
  }

  lemma {:induction false} InsCarry(f: Flat, name: string, xs: seq<ExtIn>)
    ensures var r := ApplyIns(f, name, xs);
      && r.nodes == f.nodes && r.errors == f.errors && r.extOut == f.extOut && |r.edges| == |f.edges|
      && forall k :: 0 <= k < |f.edges| ==>
           r.edges[k] == WithEnds(TouchAll(ExportsIn(xs), name, InEnd(f.edges[k])), OutEnd(f.edges[k]))
    decreases |xs|
  {
    if xs != [] {
      var f' := ApplyIn(f, name, xs[0]);
      InsCarry(f', name, xs[1..]);
      assert ExportsIn(xs)[1..] == ExportsIn(xs[1..]);
      forall k | 0 <= k < |f.edges|
        ensures ApplyIns(f, name, xs).edges[k]
          == WithEnds(TouchAll(ExportsIn(xs), name, InEnd(f.edges[k])), OutEnd(f.edges[k]))
      {
        assert f'.edges[k] == EnterEdge(name, xs[0], f.edges[k]);
        assert InEnd(f'.edges[k]) == Touch(ExportIn(xs[0]), name, InEnd(f.edges[k]));
      }
    }
  }

  lemma {:induction false} OutsCarry(f: Flat, name: string, xs: seq<ExtOut>)
    ensures var r := ApplyOuts(f, name, xs);
      && r.nodes == f.nodes && r.errors == f.errors && r.extIn == f.extIn && |r.edges| == |f.edges|
      && forall k :: 0 <= k < |f.edges| ==>
           r.edges[k] == WithEnds(InEnd(f.edges[k]), TouchAll(ExportsOut(xs), name, OutEnd(f.edges[k])))
    decreases |xs|
  {
    if xs != [] {
      var f' := ApplyOut(f, name, xs[0]);
      OutsCarry(f', name, xs[1..]);
      assert ExportsOut(xs)[1..] == ExportsOut(xs[1..]);
      forall k | 0 <= k < |f.edges|
        ensures ApplyOuts(f, name, xs).edges[k]
          == WithEnds(InEnd(f.edges[k]), TouchAll(ExportsOut(xs), name, OutEnd(f.edges[k])))
      {
        assert f'.edges[k] == LeaveEdge(name, xs[0], f.edges[k]);
        assert OutEnd(f'.edges[k]) == Touch(ExportOut(xs[0]), name, OutEnd(f.edges[k]));
      }
    }
  }

  /** Opening a level touches the old edges and leaves its own, freshly prefixed ones alone. */
  lemma OpenCarries(f: Flat, g: Level, name: string)
    ensures var r := Open(f, g, name);
      && r.nodes == f.nodes && r.errors == (f.errors || g.failed)
      && r.edges == Mapped(f.edges, Opening(g, name)) + PrefixEdges(name, g.edges)
  {
    var f1 := f.(errors := f.errors || g.failed, edges := f.edges + PrefixEdges(name, g.edges), imsgs := f.imsgs + PrefixMsgs(name, g.imsgs));
    var f2 := ApplyIns(f1, name, g.extIn);
    InsCarry(f1, name, g.extIn);
    OutsCarry(f2, name, g.extOut);
    assert ExportsIn(g.extIn) == ExportsOf(g, In) && ExportsOut(g.extOut) == ExportsOf(g, Out);
    var r := Open(f, g, name);
    forall k | 0 <= k < |r.edges|
      ensures r.edges[k] == (Mapped(f.edges, Opening(g, name)) + PrefixEdges(name, g.edges))[k]
    {
      var e := f1.edges[k];
      assert r.edges[k] == Carry(Opening(g, name), e);
      if k >= |f.edges| {
        var own := g.edges[k - |f.edges|];
        assert e == PrefixEdge(name, own);
        JoinDiffers(name, own.inComp);
        JoinDiffers(name, own.outComp);
        TouchAllIsFirst(ExportsOf(g, In), name, InEnd(e));
        TouchAllIsFirst(ExportsOf(g, Out), name, OutEnd(e));
      }
    }
  }

  // ------------------------------------------------------------------ edges of a subgraph stay inside it

  predicate EdgeAmong(paths: set<string>, path: string, e: Edge) {
    Among(paths, path, e.inComp) && Among(paths, path, e.outComp)
  }

  lemma {:induction false} AllEdgesAmong(g: Level, path: string)
    ensures forall e :: e in AllEdges(g, path) ==> EdgeAmong(Paths(g), path, e)
    decreases g, 1
  {
    ChildEdgesAmong(g.nodes, path);
    forall k | 0 <= k < |g.edges| ensures EdgeAmong(Paths(g), path, ResolveEdge(g, path, g.edges[k])) {
      var e := g.edges[k];
      ResolveUsed(In, g, path, e.inComp, e.inPort, e.inElem);
      ResolveUsed(Out, g, path, e.outComp, e.outPort, e.outElem);
    }
  }

  lemma {:induction false} ChildEdgesAmong(cs: seq<Child>, path: string)
    ensures forall e :: e in ChildEdges(cs, path) ==> EdgeAmong(NodePaths(cs), path, e)
    decreases cs, 0
  {
    if cs != [] {
      ChildEdgesAmong(cs[1..], path);
      NewEdgesAmong(cs[0], path);
      assert ChildEdges(cs, path) == NewEdges(cs[0], path) + ChildEdges(cs[1..], path);
    }
  }

  lemma {:induction false} NewEdgesAmong(c: Child, path: string)
    ensures forall e :: e in NewEdges(c, path) ==> EdgeAmong(Inside(c), path, e)
    decreases c, 0
  {
    if c.unit.Sub? {
      AllEdgesAmong(c.unit.graph, Join(path, c.name));
      forall e | e in NewEdges(c, path) ensures EdgeAmong(Inside(c), path, e) {
        AmongBelow(c.name, Paths(c.unit.graph), path, e.inComp);
        AmongBelow(c.name, Paths(c.unit.graph), path, e.outComp);
      }
    }
  }

  function NewEdges(c: Child, path: string): seq<Edge> {
    if c.unit.Sub? then AllEdges(c.unit.graph, Join(path, c.name)) else []
  }

  lemma SiblingsLeaveEdge(paths: set<string>, rest: seq<Child>, path: string, e: Edge)
    requires paths !! NodePaths(rest) && EdgeAmong(paths, path, e)
    ensures Carry(Many(rest, path), e) == e
  {
    SiblingsLeave(In, paths, rest, path, InEnd(e));
    SiblingsLeave(Out, paths, rest, path, OutEnd(e));
  }

  /** Later siblings do not touch the edges an earlier one brought in. */
  lemma {:induction false} SiblingsKeepNew(c: Child, rest: seq<Child>, path: string)
    requires Inside(c) !! NodePaths(rest)
    ensures Mapped(NewEdges(c, path), Many(rest, path)) == NewEdges(c, path)
  {
    var es := NewEdges(c, path);
    NewEdgesAmong(c, path);
    forall k | 0 <= k < |es| ensures Carry(Many(rest, path), es[k]) == es[k] {
      SiblingsLeaveEdge(Inside(c), rest, path, es[k]);
    }
  }

  lemma UsedByEdge(g: Level, e: Edge)
    requires e in g.edges
    ensures e.inComp in Uses(g) && e.outComp in Uses(g)
  {
  }

  lemma OwnEdgeResolves(g: Level, path: string, e: Edge)
    requires WellNamedNodes(g.nodes) && Clear(g.nodes, e.inComp) && Clear(g.nodes, e.outComp)
    ensures Carry(Many(g.nodes, path), PrefixEdge(path, e)) == ResolveEdge(g, path, e)
  {
    ThruNodesResolves(In, g.nodes, path, e.inComp, e.inPort, e.inElem);
    ThruNodesResolves(Out, g.nodes, path, e.outComp, e.outPort, e.outElem);
  }

  /** Own edges, once prefixed, are carried by the nodes of their level to their resolution. */
  lemma {:induction false} OwnEdgesResolve(g: Level, path: string)
    requires WellNamed(g)
    ensures Mapped(PrefixEdges(path, g.edges), Many(g.nodes, path)) == ResolveEdges(g, path, g.edges)
  {
    forall k | 0 <= k < |g.edges|
      ensures Carry(Many(g.nodes, path), PrefixEdge(path, g.edges[k])) == ResolveEdge(g, path, g.edges[k])
    {
      UsedByEdge(g, g.edges[k]);
      OwnEdgeResolves(g, path, g.edges[k]);
    }
  }

  // ------------------------------------------------------------------ the main result

  /** Carrying edges through one node and then through its later siblings. */
  lemma {:induction false} CarryInTwo(es: seq<Edge>, cs: seq<Child>, path: string)
    requires cs != [] && WellNamedNodes(cs)
    ensures Mapped(Mapped(es, One(cs[0], path)) + NewEdges(cs[0], path), Many(cs[1..], path))
      == Mapped(es, Many(cs, path)) + NewEdges(cs[0], path)
  {
    var c, rest := cs[0], cs[1..];
    var once := Mapped(es, One(c, path));
    SiblingsKeepNew(c, rest, path);
    MappedConcat(once, NewEdges(c, path), Many(rest, path));
    forall k | 0 <= k < |es| ensures Carry(Many(rest, path), once[k]) == Carry(Many(cs, path), es[k]) {
      assert once[k] == Carry(One(c, path), es[k]);
    }
    assert Mapped(once, Many(rest, path)) == Mapped(es, Many(cs, path));
  }

  lemma {:induction false} AddNodesEdges(f: Flat, cs: seq<Child>, path: string)
    requires WellNamedNodes(cs)
    ensures AddNodes(f, cs, path).edges == Mapped(f.edges, Many(cs, path)) + ChildEdges(cs, path)
    decreases cs, 0
  {
    if cs == [] {
      MappedNothing(f.edges, path);
    } else {
      AddNodeEdges(f, cs[0], path);
      AddNodesEdges(AddNode(f, cs[0], path), cs[1..], path);
      CarryInTwo(f.edges, cs, path);
      Regroup(Mapped(f.edges, Many(cs, path)), NewEdges(cs[0], path), ChildEdges(cs[1..], path));
    }
  }

  lemma MappedNothing(es: seq<Edge>, path: string)
    ensures Mapped(es, Many([], path)) == es
  {
  }

  lemma Regroup(a: seq<Edge>, b: seq<Edge>, c: seq<Edge>)
    ensures (a + b) + c == a + (b + c)
  {
  }

  lemma {:induction false} AddNodeEdges(f: Flat, c: Child, path: string)
    requires c.unit.Sub? ==> WellNamed(c.unit.graph)
    ensures AddNode(f, c, path).edges == Mapped(f.edges, One(c, path)) + NewEdges(c, path)
    decreases c, 0
  {
    if c.unit.Sub? {
      AddGraphEdges(f, c.unit.graph, Join(path, c.name));
      assert Mapped(f.edges, Whole(c.unit.graph, Join(path, c.name))) == Mapped(f.edges, One(c, path));
    } else {
      assert Mapped(f.edges, One(c, path)) == f.edges;
    }
  }

  lemma MappedConcat(es: seq<Edge>, fs: seq<Edge>, w: Stage)
    ensures Mapped(es + fs, w) == Mapped(es, w) + Mapped(fs, w)
  {
  }

  /** Adding a graph under a path carries the edges already there through it and appends the edges of all its
      levels, each endpoint resolved, with multiplicity, order and element selectors unchanged. */
  lemma {:induction false} AddGraphEdges(f: Flat, g: Level, path: string)
    requires WellNamed(g)
    ensures AddGraph(f, g, path).edges == Mapped(f.edges, Whole(g, path)) + AllEdges(g, path)
    decreases g, 1
  {
    var o := Open(f, g, path);
    OpenCarries(f, g, path);
    AddNodesEdges(o, g.nodes, path);
    var touched, own := Mapped(f.edges, Opening(g, path)), PrefixEdges(path, g.edges);
    MappedConcat(touched, own, Many(g.nodes, path));
    OwnEdgesResolve(g, path);
    assert Mapped(touched, Many(g.nodes, path)) == Mapped(f.edges, Whole(g, path));
  }

  /** Flattening preserves meaning: from the root, the edges are exactly those of all levels, resolved. */
  lemma {:induction false} FlatteningPreservesMeaning(g: Level)
    requires WellNamed(g)
    ensures AddGraph(EmptyFlat, g, "").edges == AllEdges(g, "")
  {
    AddGraphEdges(EmptyFlat, g, "");
  }
}
