// What the parser does on every stream: its stack is determined by its state until the first error, it
// computes the meaning of the lines it reads, and rewriting chains changes nothing.
module ParserProofs {
  import opened Wrappers
  import opened Graph
  import opened Parser

  // ------------------------------------------------------------------ the stack until the first error

  predicate Kinds(stack: seq<Token>, kinds: string) {
    && |stack| == |kinds|
    && forall k :: 0 <= k < |stack| ==>
         match kinds[k]
         case 'c' => stack[k].Comp?
         case 'p' => stack[k].Port?
         case _ => stack[k].Msg?
  }

  /** c for a component, p for a port, m for a message. */
  function Shape(s: State): string {
    match s
    case AtBreak => ""
    case AtCompo => "c"
    case AtPort => "p"
    case AtMsg => "m"
    case CompPort => "cp"
    case CompPortBind => "cp"
    case CompPortBindPort => "cpp"
    case CompPortExternal => "cp"
    case CompPortExternalPort => ""
    case PortExternal => "p"
    case PortExternalPort => "pp"
    case MsgBind => "m"
    case MsgBindPort => "mp"
    case ErrorS => ""
  }

  /** Without errors so far, the machine is in a proper state and its stack has the shape of that state. */
  predicate Shaped(m: Machine) {
    m.errors == [] ==> m.state != ErrorS && Kinds(m.stack, Shape(m.state))
  }

  lemma PortShaped(m: Machine, t: Token)
    requires Shaped(m) && m.errors == [] && t.Port?
    ensures OnPort(m, t).Running? && Shaped(OnPort(m, t).m)
  {
  }

  lemma CompShaped(m: Machine, t: Token)
    requires Shaped(m) && m.errors == [] && t.Comp?
    ensures OnComp(m, t).Running? && Shaped(OnComp(m, t).m)
  {
  }

  lemma StepShaped(m: Machine, t: Token)
    requires Shaped(m) && m.errors == []
    ensures Step(m, t).Running? && Shaped(Step(m, t).m)
  {
    if t.Port? {
      PortShaped(m, t);
    } else if t.Comp? {
      CompShaped(m, t);
    }
  }

  lemma StepKeepsErrors(m: Machine, t: Token)
    requires Step(m, t).Running?
    ensures m.errors <= Step(m, t).m.errors
  {
  }

  lemma {:induction false} FeedKeepsErrors(m: Machine, ts: seq<Token>)
    requires Feed(m, ts).Running?
    ensures m.errors <= Feed(m, ts).m.errors
    decreases |ts|
  {
    if ts != [] {
      StepKeepsErrors(m, ts[0]);
      FeedKeepsErrors(Step(m, ts[0]).m, ts[1..]);
    }
  }

  lemma {:induction false} FeedConcat(m: Machine, ts: seq<Token>, us: seq<Token>)
    ensures Feed(m, ts + us) == if Feed(m, ts).Running? then Feed(Feed(m, ts).m, us) else Feed(m, ts)
    decreases |ts|
  {
    if ts == [] {
      assert ts + us == us;
    } else {
      assert (ts + us)[1..] == ts[1..] + us;
      if Step(m, ts[0]).Running? {
        FeedConcat(Step(m, ts[0]).m, ts[1..], us);
      }
    }
  }

  /** On an error-free prefix the stack has exactly the shape of the state. */
  lemma {:induction false} StackShape(m: Machine, ts: seq<Token>)
    requires Shaped(m)
    requires Feed(m, ts).Running? && Feed(m, ts).m.errors == []
    ensures Shaped(Feed(m, ts).m)
    decreases |ts|
  {
    if ts != [] {
      StepKeepsErrors(m, ts[0]);
      FeedKeepsErrors(Step(m, ts[0]).m, ts[1..]);
      StepShaped(m, ts[0]);
      StackShape(Step(m, ts[0]).m, ts[1..]);
    }
  }

  /** No pop fails and no `unreachable!()` is hit before a syntax error has been reported. */
  lemma {:induction false} FailsOnlyAfterError(m: Machine, ts: seq<Token>)
    requires Shaped(m)
    ensures !Feed(m, ts).Running? ==>
      exists k :: 0 <= k < |ts| && Feed(m, ts[..k]).Running? && Feed(m, ts[..k]).m.errors != []
    decreases |ts|
  {
    if !Feed(m, ts).Running? {
      if m.errors != [] {
        assert Feed(m, ts[..0]) == Running(m);
      } else {
        StepShaped(m, ts[0]);
        var m' := Step(m, ts[0]).m;
        FailsOnlyAfterError(m', ts[1..]);
        var k :| 0 <= k < |ts[1..]| && Feed(m', ts[1..][..k]).Running? && Feed(m', ts[1..][..k]).m.errors != [];
        assert ts[..k + 1][1..] == ts[1..][..k];
        assert Feed(m, ts[..k + 1]) == Feed(m', ts[1..][..k]);
      }
    }
  }

  /** get_expected is never asked about the error state, on any input. */
  lemma {:induction false} ExpectedIsDefined(m: Machine, ts: seq<Token>)
    ensures Feed(m, ts) != Unreachable(InGetExpected)
    decreases |ts|
  {
    if ts != [] && Step(m, ts[0]).Running? {
      ExpectedIsDefined(Step(m, ts[0]).m, ts[1..]);
    }
  }

  /** After a syntax error neither guarantee survives: recovery leaves the stack as it was. */
  lemma RecoveryCanFail()
    ensures Parse([Bind, Comp("a", None), Port("p", None), External, Port("q", None)]) == Internal(StackProblem)
    ensures Parse([Bind, Port("x", None), Comp("a", None), Port("p", None), External, Port("q", None)])
            == Internal(Unreachable(OnStack))
  {
    var tail := [Comp("a", None), Port("p", None), External, Port("q", None)];
    BindFirst(tail);
    assert [Bind] + tail == [Bind, Comp("a", None), Port("p", None), External, Port("q", None)];
    Closing(Failed());
    BindFirst([Port("x", None)] + tail);
    assert [Bind] + ([Port("x", None)] + tail) == [Bind, Port("x", None), Comp("a", None), Port("p", None), External, Port("q", None)];
    PortStays(Failed(), Port("x", None), tail);
    Closing(Failed().(stack := [Port("x", None)]));
  }

  /** After a `->` at the very start. */
  function Failed(): Machine {
    Machine(ErrorS, [], Empty, [SyntaxError(1, Bind, "[Component, Port, IMSG, NewLine]")], 1)
  }

  lemma {:induction false} BindFirst(rest: seq<Token>)
    ensures Feed(Start, [Bind] + rest) == Feed(Failed(), rest)
  {
    assert Step(Start, Bind) == Running(Failed());
    assert ([Bind] + rest)[1..] == rest;
  }

  lemma {:induction false} PortStays(e: Machine, port: Token, rest: seq<Token>)
    requires e.state == ErrorS && e.stack == [] && port.Port?
    ensures Feed(e, [port] + rest) == Feed(e.(stack := [port]), rest)
  {
    assert Step(e, port) == Running(e.(stack := [port]));
    assert ([port] + rest)[1..] == rest;
  }

  lemma {:induction false} Closing(e: Machine)
    requires e.state == ErrorS
    ensures Feed(e, [Comp("a", None), Port("p", None), External, Port("q", None)])
            == CloseExtOut(e.(state := CompPortExternal, stack := e.stack + [Port("p", None)]), "q")
  {
    var ts := [Comp("a", None), Port("p", None), External, Port("q", None)];
    var m1 := e.(state := AtCompo);
    var m2 := e.(state := CompPort, stack := e.stack + [Port("p", None)]);
    var m3 := m2.(state := CompPortExternal);
    assert ts[1..] == [Port("p", None), External, Port("q", None)];
    assert ts[1..][1..] == [External, Port("q", None)];
    assert ts[1..][1..][1..] == [Port("q", None)];
    assert ts[1..][1..][1..][1..] == [];
    assert Feed(e, ts) == Feed(m1, ts[1..]) == Feed(m2, ts[1..][1..]) == Feed(m3, [Port("q", None)]);
  }

  // ------------------------------------------------------------------ lines and their meaning

  /** How a line gets to its first component. */
  datatype Head =
    | FromComp(name: string, sort: Option<string>)
    | FromMsg(text: string, port: string, elem: Option<string>, name: string, sort: Option<string>)
    | FromExt(ext: string, extElem: Option<string>, port: string, elem: Option<string>, name: string, sort: Option<string>)

  /** `p -> q in()` */
  datatype Link = Link(outPort: string, outElem: Option<string>, inPort: string, inElem: Option<string>,
                       name: string, sort: Option<string>)

  /** `p => ext`, closing a line. */
  datatype Tail = Tail(port: string, elem: Option<string>, ext: string, extElem: Option<string>)

  datatype Line = Blank | Chain(head: Head, links: seq<Link>, tail: Option<Tail>)

  function HeadTokens(h: Head): seq<Token> {
    match h
    case FromComp(n, s) => [Comp(n, s)]
    case FromMsg(text, p, e, n, s) => [Msg(text), Bind, Port(p, e), Comp(n, s)]
    case FromExt(x, xe, p, e, n, s) => [Port(x, xe), External, Port(p, e), Comp(n, s)]
  }

  function LinkTokens(l: Link): seq<Token> {
    [Port(l.outPort, l.outElem), Bind, Port(l.inPort, l.inElem), Comp(l.name, l.sort)]
  }

  function LinksTokens(ls: seq<Link>): seq<Token> {
    if ls == [] then [] else LinksTokens(ls[..|ls| - 1]) + LinkTokens(ls[|ls| - 1])
  }

  function TailTokens(t: Option<Tail>): seq<Token> {
    if t.None? then [] else [Port(t.value.port, t.value.elem), External, Port(t.value.ext, t.value.extElem)]
  }

  function LineTokens(l: Line): seq<Token> {
    match l
    case Blank => [Break]
    case Chain(h, ls, t) => HeadTokens(h) + LinksTokens(ls) + TailTokens(t) + [Break]
  }

  function LinesTokens(ls: seq<Line>): seq<Token> {
    if ls == [] then [] else LinesTokens(ls[..|ls| - 1]) + LineTokens(ls[|ls| - 1])
  }

  function WithNode(g: CoreGraph, name: string, sort: Option<string>): CoreGraph {
    if sort.Some? && sort.value != "" then g.(nodes := g.nodes + [Node(name, sort.value)]) else g
  }

  function MeanHead(g: CoreGraph, h: Head): CoreGraph {
    var d := WithNode(g, h.name, h.sort);
    match h
    case FromComp(_, _) => d
    case FromMsg(text, p, e, n, _) => d.(imsgs := d.imsgs + [IMsg(text, p, e, n)])
    case FromExt(x, _, p, e, n, _) => d.(extIn := d.extIn + [ExtIn(x, p, e, n)])
  }

  function Last(h: Head, ls: seq<Link>): Token {
    if ls == [] then Comp(h.name, h.sort) else Comp(ls[|ls| - 1].name, ls[|ls| - 1].sort)
  }

  function MeanLinks(g: CoreGraph, h: Head, ls: seq<Link>): CoreGraph {
    if ls == [] then g
    else
      var rest, l := ls[..|ls| - 1], ls[|ls| - 1];
      var d := WithNode(MeanLinks(g, h, rest), l.name, l.sort);
      d.(edges := d.edges + [Edge(Last(h, rest).name, l.outPort, l.outElem, l.inPort, l.inElem, l.name)])
  }

  function MeanTail(g: CoreGraph, from: string, t: Option<Tail>): CoreGraph {
    if t.None? then g else g.(extOut := g.extOut + [ExtOut(t.value.ext, t.value.port, t.value.elem, from)])
  }

  function MeanLine(g: CoreGraph, l: Line): CoreGraph {
    match l
    case Blank => g
    case Chain(h, ls, t) => MeanTail(MeanLinks(MeanHead(g, h), h, ls), Last(h, ls).name, t)
  }

  function MeanLines(g: CoreGraph, ls: seq<Line>): CoreGraph {
    if ls == [] then g else MeanLine(MeanLines(g, ls[..|ls| - 1]), ls[|ls| - 1])
  }

  // ------------------------------------------------------------------ reading lines

  lemma {:induction false} Feed1(m: Machine, t: Token)
    ensures Feed(m, [t]) == Step(m, t)
  {
    assert [t][1..] == [];
  }

  lemma {:induction false} FeedSnoc(m: Machine, ts: seq<Token>, t: Token)
    requires Feed(m, ts).Running?
    ensures Feed(m, ts + [t]) == Step(Feed(m, ts).m, t)
  {
    FeedConcat(m, ts, [t]);
    Feed1(Feed(m, ts).m, t);
  }

  lemma {:induction false} Feed3(m: Machine, a: Token, b: Token, c: Token)
    requires Step(m, a).Running? && Step(Step(m, a).m, b).Running?
    ensures Feed(m, [a, b, c]) == Step(Step(Step(m, a).m, b).m, c)
  {
    Feed1(m, a);
    FeedSnoc(m, [a], b);
    assert [a] + [b] == [a, b];
    FeedSnoc(m, [a, b], c);
    assert [a, b] + [c] == [a, b, c];
  }

  lemma {:induction false} MsgHeadRead(m: Machine, h: Head)
    requires m.state == AtBreak && m.stack == [] && h.FromMsg?
    ensures Feed(m, HeadTokens(h)) == Running(m.(state := AtCompo, stack := [Comp(h.name, h.sort)], graph := MeanHead(m.graph, h)))
  {
    var before := [Msg(h.text), Bind, Port(h.port, h.elem)];
    Feed3(m, Msg(h.text), Bind, Port(h.port, h.elem));
    assert HeadTokens(h) == before + [Comp(h.name, h.sort)];
    FeedSnoc(m, before, Comp(h.name, h.sort));
  }

  lemma {:induction false} ExtHeadRead(m: Machine, h: Head)
    requires m.state == AtBreak && m.stack == [] && h.FromExt?
    ensures Feed(m, HeadTokens(h)) == Running(m.(state := AtCompo, stack := [Comp(h.name, h.sort)], graph := MeanHead(m.graph, h)))
  {
    var before := [Port(h.ext, h.extElem), External, Port(h.port, h.elem)];
    Feed3(m, Port(h.ext, h.extElem), External, Port(h.port, h.elem));
    assert HeadTokens(h) == before + [Comp(h.name, h.sort)];
    FeedSnoc(m, before, Comp(h.name, h.sort));
  }

  lemma {:induction false} HeadRead(m: Machine, h: Head)
    requires m.state == AtBreak && m.stack == []
    ensures Feed(m, HeadTokens(h)) == Running(m.(state := AtCompo, stack := [Comp(h.name, h.sort)], graph := MeanHead(m.graph, h)))
  {
    if h.FromMsg? {
      MsgHeadRead(m, h);
    } else if h.FromExt? {
      ExtHeadRead(m, h);
    } else {
      Feed1(m, Comp(h.name, h.sort));
    }
  }

  lemma {:induction false} LinkRead(m: Machine, from: Token, l: Link)
    requires m.state == AtCompo && m.stack == [from] && from.Comp?
    ensures var d := WithNode(m.graph, l.name, l.sort);
      Feed(m, LinkTokens(l)) == Running(m.(state := AtCompo, stack := [Comp(l.name, l.sort)],
        graph := d.(edges := d.edges + [Edge(from.name, l.outPort, l.outElem, l.inPort, l.inElem, l.name)])))
  {
    var p, q, c := Port(l.outPort, l.outElem), Port(l.inPort, l.inElem), Comp(l.name, l.sort);
    Feed3(m, p, Bind, q);
    FeedSnoc(m, [p, Bind, q], c);
    assert LinkTokens(l) == [p, Bind, q] + [c];
  }

  lemma {:induction false} LinksRead(m: Machine, h: Head, ls: seq<Link>)
    requires m.state == AtCompo && m.stack == [Comp(h.name, h.sort)]
    ensures Feed(m, LinksTokens(ls)) == Running(m.(stack := [Last(h, ls)], graph := MeanLinks(m.graph, h, ls)))
  {
    if ls != [] {
      var rest := ls[..|ls| - 1];
      LinksRead(m, h, rest);
      FeedConcat(m, LinksTokens(rest), LinkTokens(ls[|ls| - 1]));
      LinkRead(Feed(m, LinksTokens(rest)).m, Last(h, rest), ls[|ls| - 1]);
    }
  }

  lemma {:induction false} BodyRead(m: Machine, h: Head, ls: seq<Link>)
    requires m.state == AtBreak && m.stack == []
    ensures Feed(m, HeadTokens(h) + LinksTokens(ls))
      == Running(m.(state := AtCompo, stack := [Last(h, ls)], graph := MeanLinks(MeanHead(m.graph, h), h, ls)))
  {
    HeadRead(m, h);
    FeedConcat(m, HeadTokens(h), LinksTokens(ls));
    LinksRead(Feed(m, HeadTokens(h)).m, h, ls);
  }

  /** From the last component of a line to its end. */
  lemma {:induction false} TailRead(m: Machine, from: Token, t: Option<Tail>)
    requires m.state == AtCompo && m.stack == [from] && from.Comp?
    ensures Feed(m, TailTokens(t) + [Break])
      == Running(m.(state := AtBreak, stack := [], graph := MeanTail(m.graph, from.name, t), line := m.line + 1))
  {
    if t.Some? {
      Feed3(m, Port(t.value.port, t.value.elem), External, Port(t.value.ext, t.value.extElem));
      FeedSnoc(m, TailTokens(t), Break);
    } else {
      assert TailTokens(t) + [Break] == [Break];
      Feed1(m, Break);
    }
  }

  /** Reading a whole line adds exactly its meaning to the graph. */
  lemma {:induction false} LineRead(m: Machine, l: Line)
    requires m.state == AtBreak && m.stack == []
    ensures Feed(m, LineTokens(l)) == Running(m.(graph := MeanLine(m.graph, l), line := m.line + 1))
  {
    if l.Blank? {
      Feed1(m, Break);
    } else {
      var body := HeadTokens(l.head) + LinksTokens(l.links);
      BodyRead(m, l.head, l.links);
      assert LineTokens(l) == body + (TailTokens(l.tail) + [Break]);
      FeedConcat(m, body, TailTokens(l.tail) + [Break]);
      TailRead(Feed(m, body).m, Last(l.head, l.links), l.tail);
    }
  }

  lemma {:induction false} LinesRead(m: Machine, ls: seq<Line>)
    requires m.state == AtBreak && m.stack == []
    ensures Feed(m, LinesTokens(ls)) == Running(m.(graph := MeanLines(m.graph, ls), line := m.line + |ls|))
  {
    if ls != [] {
      var rest := ls[..|ls| - 1];
      LinesRead(m, rest);
      FeedConcat(m, LinesTokens(rest), LineTokens(ls[|ls| - 1]));
      LineRead(Feed(m, LinesTokens(rest)).m, ls[|ls| - 1]);
    }
  }

  /** Every text of lines parses, to its meaning. */
  lemma {:induction false} LinesParse(ls: seq<Line>)
    ensures Parse(LinesTokens(ls)) == Parsed.Graph(MeanLines(Empty, ls))
  {
    LinesRead(Start, ls);
  }
}
