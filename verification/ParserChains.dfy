// Rewritings of a flowscript text that leave its meaning alone, and the round trip of a printed graph.
module ParserChains {
  import opened Wrappers
  import opened Graph
  import opened Parser
  import opened ParserProofs

  // ------------------------------------------------------------------ machines that differ in line and sorts

  /** The stack forgets the sort of a component as soon as its node is declared. */
  predicate SameItem(a: Token, b: Token) {
    a == b || (a.Comp? && b.Comp? && a.name == b.name)
  }

  predicate SameError(a: SyntaxError, b: SyntaxError) {
    a.found == b.found && a.expected == b.expected
  }

  /** Equal except for line numbers and the sorts on the stack. */
  predicate Alike(m: Machine, n: Machine) {
    && m.state == n.state && m.graph == n.graph
    && |m.stack| == |n.stack| && (forall k :: 0 <= k < |m.stack| ==> SameItem(m.stack[k], n.stack[k]))
    && |m.errors| == |n.errors| && (forall k :: 0 <= k < |m.errors| ==> SameError(m.errors[k], n.errors[k]))
  }

  predicate AlikeOutcome(o: Outcome, q: Outcome) {
    if o.Running? && q.Running? then Alike(o.m, q.m) else o == q
  }

  /** The same graph, or the same errors up to their line numbers, or the same internal failure. */
  predicate SameParse(a: Parsed, b: Parsed) {
    match (a, b)
    case (Graph(g), Graph(h)) => g == h
    case (Errors(es), Errors(fs)) => |es| == |fs| && forall k :: 0 <= k < |es| ==> SameError(es[k], fs[k])
    case (Internal(o), Internal(q)) => o == q
    case _ => false
  }

  lemma FailAlike(m: Machine, n: Machine, t: Token)
    requires Alike(m, n)
    ensures AlikeOutcome(Fail(m, t), Fail(n, t))
  {
  }

  lemma PortAlike(m: Machine, n: Machine, t: Token)
    requires Alike(m, n) && t.Port?
    ensures AlikeOutcome(OnPort(m, t), OnPort(n, t))
  {
    FailAlike(m, n, t);
  }

  lemma CloseAlike(m: Machine, n: Machine, t: Token)
    requires Alike(m, n) && t.Comp?
    ensures AlikeOutcome(CloseEdge(m, t), CloseEdge(n, t))
    ensures AlikeOutcome(CloseExtIn(m, t), CloseExtIn(n, t))
    ensures AlikeOutcome(CloseMsg(m, t), CloseMsg(n, t))
  {
  }

  lemma DeclareAlike(m: Machine, n: Machine, t: Token)
    requires Alike(m, n) && t.Comp?
    ensures Alike(Declare(m, t), Declare(n, t)) && Declare(m, t).state == m.state && Declare(n, t).state == m.state
  {
  }

  lemma PushAlike(m: Machine, n: Machine, t: Token, s: State)
    requires Alike(m, n)
    ensures AlikeOutcome(PushGoto(m, t, s), PushGoto(n, t, s))
  {
  }

  lemma CompAlike(m: Machine, n: Machine, t: Token)
    requires Alike(m, n) && t.Comp?
    ensures AlikeOutcome(OnComp(m, t), OnComp(n, t))
  {
    DeclareAlike(m, n, t);
    var dm, dn := Declare(m, t), Declare(n, t);
    if m.state == CompPortBindPort || m.state == PortExternalPort || m.state == MsgBindPort {
      CloseAlike(dm, dn, t);
    } else if m.state == AtBreak {
      PushAlike(dm, dn, t, AtCompo);
    } else if m.state != ErrorS {
      FailAlike(dm, dn, t);
    }
  }

  lemma BreakAlike(m: Machine, n: Machine)
    requires Alike(m, n)
    ensures AlikeOutcome(OnBreak(m), OnBreak(n))
  {
    FailAlike(m.(line := m.line + 1), n.(line := n.line + 1), Break);
  }

  lemma StepAlike(m: Machine, n: Machine, t: Token)
    requires Alike(m, n)
    ensures AlikeOutcome(Step(m, t), Step(n, t))
  {
    if t.Port? {
      PortAlike(m, n, t);
    } else if t.Comp? {
      CompAlike(m, n, t);
    } else if t.Break? {
      BreakAlike(m, n);
    } else {
      FailAlike(m, n, t);
    }
  }

  lemma {:induction false} FeedAlike(m: Machine, n: Machine, ts: seq<Token>)
    requires Alike(m, n)
    ensures AlikeOutcome(Feed(m, ts), Feed(n, ts))
    decreases |ts|
  {
    if ts != [] {
      StepAlike(m, n, ts[0]);
      if Step(m, ts[0]).Running? {
        FeedAlike(Step(m, ts[0]).m, Step(n, ts[0]).m, ts[1..]);
      }
    }
  }

  /** Two beginnings that leave alike machines can be continued by any text. */
  lemma {:induction false} ContinueAlike(a: seq<Token>, b: seq<Token>, rest: seq<Token>)
    requires AlikeOutcome(Feed(Start, a), Feed(Start, b))
    ensures SameParse(Parse(a + rest), Parse(b + rest))
  {
    FeedConcat(Start, a, rest);
    FeedConcat(Start, b, rest);
    if Feed(Start, a).Running? {
      FeedAlike(Feed(Start, a).m, Feed(Start, b).m, rest);
    }
  }

  // ------------------------------------------------------------------ chains

  /** Splitting a line at a component: ending it there and repeating the component without its sort on the
      next line changes nothing, whatever follows. */
  lemma {:induction false} SplitChain(before: seq<Token>, name: string, sort: Option<string>, rest: seq<Token>)
    requires var o := Feed(Start, before + [Comp(name, sort)]); o.Running? && o.m.errors == []
    ensures SameParse(Parse(before + [Comp(name, sort)] + rest),
                      Parse(before + [Comp(name, sort), Break, Comp(name, None)] + rest))
  {
    var head := before + [Comp(name, sort)];
    FeedConcat(Start, before, [Comp(name, sort)]);
    Feed1(Feed(Start, before).m, Comp(name, sort));
    StepKeepsErrors(Feed(Start, before).m, Comp(name, sort));
    StackShape(Start, before);
    AtComponent(Feed(Start, before).m, name, sort);
    Repeat(Feed(Start, head).m, name);
    FeedConcat(Start, head, [Break, Comp(name, None)]);
    assert before + [Comp(name, sort), Break, Comp(name, None)] == head + [Break, Comp(name, None)];
    ContinueAlike(head, before + [Comp(name, sort), Break, Comp(name, None)], rest);
  }

  /** An accepted component is the whole stack. */
  lemma AtComponent(m: Machine, name: string, sort: Option<string>)
    requires Shaped(m) && m.errors == []
    requires var o := Step(m, Comp(name, sort)); o.Running? && o.m.errors == []
    ensures var n := Step(m, Comp(name, sort)).m; n.state == AtCompo && n.stack == [Comp(name, sort)]
  {
    if m.state == AtBreak {
      assert m.stack == [];
    }
  }

  lemma {:induction false} Repeat(m: Machine, name: string)
    requires m.state == AtCompo && |m.stack| == 1 && SameItem(m.stack[0], Comp(name, None))
    ensures AlikeOutcome(Running(m), Feed(m, [Break, Comp(name, None)]))
  {
    Feed1(m, Break);
    FeedSnoc(m, [Break], Comp(name, None));
    assert [Break] + [Comp(name, None)] == [Break, Comp(name, None)];
  }

  lemma BindThenBreak(m: Machine)
    requires Step(m, Bind).Running?
    ensures AlikeOutcome(Step(m, Bind), Step(Step(m, Bind).m, Break))
  {
  }

  /** A line break right after `->` changes nothing. */
  lemma {:induction false} BreakAfterBind(before: seq<Token>, rest: seq<Token>)
    requires Feed(Start, before + [Bind]).Running?
    ensures SameParse(Parse(before + [Bind] + rest), Parse(before + [Bind, Break] + rest))
  {
    FeedConcat(Start, before, [Bind]);
    FeedSnoc(Start, before, Bind);
    FeedSnoc(Start, before + [Bind], Break);
    BindThenBreak(Feed(Start, before).m);
    assert before + [Bind, Break] == before + [Bind] + [Break];
    ContinueAlike(before + [Bind], before + [Bind, Break], rest);
  }

  // ------------------------------------------------------------------ printing a graph

  function NodeLines(ns: seq<Node>): seq<Line> {
    seq(|ns|, k requires 0 <= k < |ns| => Chain(FromComp(ns[k].name, Some(ns[k].sort)), [], None))
  }

  function EdgeLines(es: seq<Edge>): seq<Line> {
    seq(|es|, k requires 0 <= k < |es| =>
      Chain(FromComp(es[k].outComp, None),
            [Link(es[k].outPort, es[k].outElem, es[k].inPort, es[k].inElem, es[k].inComp, None)], None))
  }

  function MsgLines(ms: seq<IMsg>): seq<Line> {
    seq(|ms|, k requires 0 <= k < |ms| => Chain(FromMsg(ms[k].msg, ms[k].port, ms[k].elem, ms[k].comp, None), [], None))
  }

  function ExtInLines(xs: seq<ExtIn>): seq<Line> {
    seq(|xs|, k requires 0 <= k < |xs| => Chain(FromExt(xs[k].port, None, xs[k].inPort, xs[k].inElem, xs[k].inComp, None), [], None))
  }

  function ExtOutLines(xs: seq<ExtOut>): seq<Line> {
    seq(|xs|, k requires 0 <= k < |xs| =>
      Chain(FromComp(xs[k].outComp, None), [], Some(Tail(xs[k].outPort, xs[k].outElem, xs[k].port, None))))
  }

  /** One line per node, edge, message and exported port, in that order. */
  function GraphLines(g: CoreGraph): seq<Line> {
    NodeLines(g.nodes) + EdgeLines(g.edges) + MsgLines(g.imsgs) + ExtInLines(g.extIn) + ExtOutLines(g.extOut)
  }

  function Print(g: CoreGraph): seq<Token> {
    LinesTokens(GraphLines(g))
  }

  function Declared(ns: seq<Node>): seq<Node> {
    if ns == [] then []
    else Declared(ns[..|ns| - 1]) + (if ns[|ns| - 1].sort != "" then [ns[|ns| - 1]] else [])
  }

  lemma {:induction false} MeanConcat(g: CoreGraph, ks: seq<Line>, ls: seq<Line>)
    ensures MeanLines(g, ks + ls) == MeanLines(MeanLines(g, ks), ls)
  {
    if ls == [] {
      assert ks + ls == ks;
    } else {
      assert (ks + ls)[..|ks + ls| - 1] == ks + ls[..|ls| - 1];
      MeanConcat(g, ks, ls[..|ls| - 1]);
    }
  }

  lemma {:induction false} MeanNodes(g: CoreGraph, ns: seq<Node>)
    ensures MeanLines(g, NodeLines(ns)) == g.(nodes := g.nodes + Declared(ns))
  {
    if ns != [] {
      var n := |ns| - 1;
      assert NodeLines(ns)[..n] == NodeLines(ns[..n]);
      MeanNodes(g, ns[..n]);
    }
  }

  lemma {:induction false} MeanEdges(g: CoreGraph, es: seq<Edge>)
    ensures MeanLines(g, EdgeLines(es)) == g.(edges := g.edges + es)
  {
    if es != [] {
      var n := |es| - 1;
      assert EdgeLines(es)[..n] == EdgeLines(es[..n]);
      MeanEdges(g, es[..n]);
      var l := EdgeLines(es)[n];
      assert l.links[..0] == [];
      assert MeanLinks(MeanLines(g, EdgeLines(es[..n])), l.head, []) == MeanLines(g, EdgeLines(es[..n]));
      assert es == es[..n] + [es[n]];
    }
  }

  lemma {:induction false} MeanMsgs(g: CoreGraph, ms: seq<IMsg>)
    ensures MeanLines(g, MsgLines(ms)) == g.(imsgs := g.imsgs + ms)
  {
    if ms != [] {
      var n := |ms| - 1;
      assert MsgLines(ms)[..n] == MsgLines(ms[..n]);
      MeanMsgs(g, ms[..n]);
      assert ms == ms[..n] + [ms[n]];
    }
  }

  lemma {:induction false} MeanExtIns(g: CoreGraph, xs: seq<ExtIn>)
    ensures MeanLines(g, ExtInLines(xs)) == g.(extIn := g.extIn + xs)
  {
    if xs != [] {
      var n := |xs| - 1;
      assert ExtInLines(xs)[..n] == ExtInLines(xs[..n]);
      MeanExtIns(g, xs[..n]);
      assert xs == xs[..n] + [xs[n]];
    }
  }

  lemma {:induction false} MeanExtOuts(g: CoreGraph, xs: seq<ExtOut>)
    ensures MeanLines(g, ExtOutLines(xs)) == g.(extOut := g.extOut + xs)
  {
    if xs != [] {
      var n := |xs| - 1;
      assert ExtOutLines(xs)[..n] == ExtOutLines(xs[..n]);
      MeanExtOuts(g, xs[..n]);
      assert xs == xs[..n] + [xs[n]];
    }
  }

  lemma {:induction false} DeclaredSome(ns: seq<Node>)
    ensures |Declared(ns)| <= |ns|
    ensures (exists k :: 0 <= k < |ns| && ns[k].sort == "") ==> |Declared(ns)| < |ns|
  {
    if ns != [] {
      DeclaredSome(ns[..|ns| - 1]);
      assert forall k :: 0 <= k < |ns| - 1 ==> ns[k] == ns[..|ns| - 1][k];
    }
  }

  lemma {:induction false} DeclaredSorted(ns: seq<Node>)
    requires forall k :: 0 <= k < |ns| ==> ns[k].sort != ""
    ensures Declared(ns) == ns
  {
    if ns != [] {
      DeclaredSorted(ns[..|ns| - 1]);
      assert ns == ns[..|ns| - 1] + [ns[|ns| - 1]];
    }
  }

  lemma DeclaredAll(ns: seq<Node>)
    ensures Declared(ns) == ns <==> forall k :: 0 <= k < |ns| ==> ns[k].sort != ""
  {
    DeclaredSome(ns);
    if forall k :: 0 <= k < |ns| ==> ns[k].sort != "" {
      DeclaredSorted(ns);
    }
  }

  lemma MeanGraphEdges(g: CoreGraph)
    ensures MeanLines(Empty, NodeLines(g.nodes) + EdgeLines(g.edges)) == Empty.(nodes := Declared(g.nodes), edges := g.edges)
  {
    MeanConcat(Empty, NodeLines(g.nodes), EdgeLines(g.edges));
    MeanNodes(Empty, g.nodes);
    assert Empty.nodes + Declared(g.nodes) == Declared(g.nodes);
    MeanEdges(Empty.(nodes := Declared(g.nodes)), g.edges);
    assert Empty.edges + g.edges == g.edges;
  }

  lemma MeanGraphMsgs(g: CoreGraph)
    ensures MeanLines(Empty, NodeLines(g.nodes) + EdgeLines(g.edges) + MsgLines(g.imsgs))
      == Empty.(nodes := Declared(g.nodes), edges := g.edges, imsgs := g.imsgs)
  {
    MeanConcat(Empty, NodeLines(g.nodes) + EdgeLines(g.edges), MsgLines(g.imsgs));
    MeanGraphEdges(g);
    MeanMsgs(Empty.(nodes := Declared(g.nodes), edges := g.edges), g.imsgs);
    assert Empty.imsgs + g.imsgs == g.imsgs;
  }

  lemma MeanGraph(g: CoreGraph)
    ensures MeanLines(Empty, GraphLines(g)) == g.(nodes := Declared(g.nodes))
  {
    var ins := NodeLines(g.nodes) + EdgeLines(g.edges) + MsgLines(g.imsgs);
    var before := Empty.(nodes := Declared(g.nodes), edges := g.edges, imsgs := g.imsgs);
    MeanGraphMsgs(g);
    MeanConcat(Empty, ins, ExtInLines(g.extIn));
    MeanExtIns(before, g.extIn);
    assert before.extIn + g.extIn == g.extIn;
    MeanConcat(Empty, ins + ExtInLines(g.extIn), ExtOutLines(g.extOut));
    MeanExtOuts(before.(extIn := g.extIn), g.extOut);
    assert before.extOut + g.extOut == g.extOut;
  }

  /** Parse after print: the printed graph always parses, and comes back unchanged exactly when every node
      has a non-empty sort. */
  lemma ParseAfterPrint(g: CoreGraph)
    ensures Parse(Print(g)) == Parsed.Graph(g.(nodes := Declared(g.nodes)))
    ensures Parse(Print(g)) == Parsed.Graph(g) <==> forall k :: 0 <= k < |g.nodes| ==> g.nodes[k].sort != ""
  {
    LinesParse(GraphLines(g));
    MeanGraph(g);
    DeclaredAll(g.nodes);
  }
}
