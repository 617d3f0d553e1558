// The exact language the parser accepts, for texts that may stop anywhere, and what it makes of them.
module ParserLanguage {
  import opened Wrappers
  import opened Graph
  import opened Parser
  import opened ParserProofs
  import opened ParserChains

  // ------------------------------------------------------------------ tokens that do not matter

  /** Without comments, and without the line breaks that follow a `->`; `open` right after one. */
  function Skim(ts: seq<Token>, open: bool): seq<Token> {
    if ts == [] then []
    else if ts[0].Comment? || (open && ts[0].Break?) then Skim(ts[1..], open)
    else [ts[0]] + Skim(ts[1..], ts[0].Bind?)
  }

  function Kept(ts: seq<Token>): seq<Token> {
    Skim(ts, false)
  }

  /** The states right after a `->`. */
  predicate Open(s: State) {
    s == CompPortBind || s == MsgBind || s == ErrorS
  }

  lemma BindOpens(m: Machine)
    ensures Step(m, Bind).Running? && Open(Step(m, Bind).m.state)
  {
  }

  lemma {:induction false} SkimAlike(m: Machine, n: Machine, ts: seq<Token>, open: bool)
    requires Alike(m, n) && (open ==> Open(m.state))
    ensures AlikeOutcome(Feed(m, ts), Feed(n, Skim(ts, open)))
    decreases |ts|
  {
    if ts != [] {
      var t, rest := ts[0], ts[1..];
      if t.Comment? || (open && t.Break?) {
        SkimAlike(Step(m, t).m, n, rest, open);
      } else {
        StepAlike(m, n, t);
        BindOpens(m);
        assert Skim(ts, open)[1..] == Skim(rest, t.Bind?);
        if Step(m, t).Running? && Step(n, t).Running? {
          SkimAlike(Step(m, t).m, Step(n, t).m, rest, t.Bind?);
        }
      }
    }
  }

  /** Comments, and line breaks after a `->`, never matter: on every text, with errors or without. */
  lemma KeptParsesAlike(ts: seq<Token>)
    ensures SameParse(Parse(ts), Parse(Kept(ts)))
  {
    SkimAlike(Start, Start, ts, false);
  }

  // ------------------------------------------------------------------ where a text stands

  /** Where a text stands: whole lines, then the head and links of the current line, then a started piece. */
  datatype Place = Place(lines: seq<Line>, head: Option<Head>, links: seq<Link>, piece: seq<Token>)

  function Body(head: Option<Head>, links: seq<Link>): seq<Token> {
    if head.None? then [] else HeadTokens(head.value) + LinksTokens(links)
  }

  function PlaceTokens(p: Place): seq<Token> {
    LinesTokens(p.lines) + Body(p.head, p.links) + p.piece
  }

  predicate Fits(s: State, p: Place) {
    match s
    case AtBreak => p.head.None? && p.piece == []
    case AtPort => p.head.None? && |p.piece| == 1 && p.piece[0].Port?
    case PortExternal => p.head.None? && |p.piece| == 2 && p.piece[0].Port? && p.piece[1] == External
    case PortExternalPort => p.head.None? && |p.piece| == 3 && p.piece[0].Port? && p.piece[1] == External && p.piece[2].Port?
    case AtMsg => p.head.None? && |p.piece| == 1 && p.piece[0].Msg?
    case MsgBind => p.head.None? && |p.piece| == 2 && p.piece[0].Msg? && p.piece[1] == Bind
    case MsgBindPort => p.head.None? && |p.piece| == 3 && p.piece[0].Msg? && p.piece[1] == Bind && p.piece[2].Port?
    case AtCompo => p.head.Some? && p.piece == []
    case CompPort => p.head.Some? && |p.piece| == 1 && p.piece[0].Port?
    case CompPortBind => p.head.Some? && |p.piece| == 2 && p.piece[0].Port? && p.piece[1] == Bind
    case CompPortBindPort => p.head.Some? && |p.piece| == 3 && p.piece[0].Port? && p.piece[1] == Bind && p.piece[2].Port?
    case CompPortExternal => p.head.Some? && |p.piece| == 2 && p.piece[0].Port? && p.piece[1] == External
    case CompPortExternalPort => p.head.Some? && |p.piece| == 3 && p.piece[0].Port? && p.piece[1] == External && p.piece[2].Port?
    case ErrorS => false
  }

  /** The first component of a line completes its head. */
  lemma HeadPlace(p: Place, s: State, t: Token) returns (q: Place)
    requires Fits(s, p) && t.Comp? && (s == AtBreak || s == PortExternalPort || s == MsgBindPort)
    ensures Fits(AtCompo, q) && PlaceTokens(q) == PlaceTokens(p) + [t]
  {
    var h := if s == AtBreak then FromComp(t.name, t.sort)
      else if s == MsgBindPort then FromMsg(p.piece[0].text, p.piece[2].name, p.piece[2].elem, t.name, t.sort)
      else FromExt(p.piece[0].name, p.piece[0].elem, p.piece[2].name, p.piece[2].elem, t.name, t.sort);
    q := Place(p.lines, Some(h), [], []);
    assert HeadTokens(h) == p.piece + [t];
    assert LinksTokens([]) == [];
  }

  /** A further component completes a link. */
  lemma LinkPlace(p: Place, t: Token) returns (q: Place)
    requires Fits(CompPortBindPort, p) && t.Comp?
    ensures Fits(AtCompo, q) && PlaceTokens(q) == PlaceTokens(p) + [t]
  {
    var l := Link(p.piece[0].name, p.piece[0].elem, p.piece[2].name, p.piece[2].elem, t.name, t.sort);
    q := Place(p.lines, p.head, p.links + [l], []);
    assert LinkTokens(l) == p.piece + [t];
    assert (p.links + [l])[..|p.links|] == p.links;
    assert LinksTokens(p.links + [l]) == LinksTokens(p.links) + LinkTokens(l);
  }

  /** A line break completes a line. */
  lemma LinePlace(p: Place, s: State) returns (q: Place)
    requires Fits(s, p) && (s == AtBreak || s == AtCompo || s == CompPortExternalPort)
    ensures Fits(AtBreak, q) && PlaceTokens(q) == PlaceTokens(p) + [Break]
  {
    var l := LastLine(p, s);
    q := Place(p.lines + [l], None, [], []);
    assert (p.lines + [l])[..|p.lines|] == p.lines;
    assert LinesTokens(p.lines + [l]) == LinesTokens(p.lines) + LineTokens(l);
    Joined(LinesTokens(p.lines), Body(p.head, p.links), p.piece, [Break]);
  }

  lemma Joined(a: seq<Token>, b: seq<Token>, c: seq<Token>, d: seq<Token>)
    ensures a + (b + c + d) == a + b + c + d
  {
  }

  lemma LastLine(p: Place, s: State) returns (l: Line)
    requires Fits(s, p) && (s == AtBreak || s == AtCompo || s == CompPortExternalPort)
    ensures LineTokens(l) == Body(p.head, p.links) + p.piece + [Break]
  {
    if s == AtBreak {
      l := Blank;
    } else {
      var tail := if s == AtCompo then None else Some(Tail(p.piece[0].name, p.piece[0].elem, p.piece[2].name, p.piece[2].elem));
      l := Chain(p.head.value, p.links, tail);
      assert TailTokens(tail) == p.piece;
    }
  }

  /** Any other accepted token extends the started piece. */
  lemma PiecePlace(m: Machine, p: Place, t: Token)
    requires m.errors == [] && Fits(m.state, p) && (t.Bind? || t.External? || t.Port? || t.Msg?)
    requires Step(m, t).Running? && Step(m, t).m.errors == []
    ensures Fits(Step(m, t).m.state, p.(piece := p.piece + [t]))
  {
  }

  /** An accepted token either completes a line, a head or a link, or extends the started piece. */
  lemma StepPlace(m: Machine, p: Place, t: Token) returns (q: Place)
    requires m.errors == [] && Fits(m.state, p) && !t.Comment? && !(t.Break? && Open(m.state))
    requires Step(m, t).Running? && Step(m, t).m.errors == []
    ensures Fits(Step(m, t).m.state, q) && PlaceTokens(q) == PlaceTokens(p) + [t]
  {
    if t.Comp? {
      q := CompPlace(m, p, t);
    } else if t.Break? {
      q := LinePlace(p, m.state);
    } else {
      q := p.(piece := p.piece + [t]);
      PiecePlace(m, p, t);
      Reassociate(LinesTokens(p.lines) + Body(p.head, p.links), p.piece, t);
    }
  }

  lemma Reassociate(a: seq<Token>, b: seq<Token>, t: Token)
    ensures a + (b + [t]) == a + b + [t]
  {
  }

  lemma CompPlace(m: Machine, p: Place, t: Token) returns (q: Place)
    requires m.errors == [] && Fits(m.state, p) && t.Comp?
    requires Step(m, t).Running? && Step(m, t).m.errors == []
    ensures Fits(Step(m, t).m.state, q) && PlaceTokens(q) == PlaceTokens(p) + [t]
  {
    if m.state == CompPortBindPort {
      q := LinkPlace(p, t);
    } else {
      q := HeadPlace(p, m.state, t);
    }
  }

  lemma Associative(a: seq<Token>, b: seq<Token>, c: seq<Token>)
    ensures a + b + c == a + (b + c)
  {
  }

  lemma OpenAfter(m: Machine, t: Token)
    requires m.state != ErrorS && !t.Comment? && !(t.Break? && Open(m.state))
    requires Step(m, t).Running? && Step(m, t).m.errors == []
    ensures t.Bind? <==> Open(Step(m, t).m.state)
  {
  }

  lemma {:induction false} FeedPlace(m: Machine, p: Place, ts: seq<Token>) returns (q: Place)
    requires Fits(m.state, p)
    requires Feed(m, ts).Running? && Feed(m, ts).m.errors == []
    ensures Fits(Feed(m, ts).m.state, q) && PlaceTokens(q) == PlaceTokens(p) + Skim(ts, Open(m.state))
    decreases |ts|
  {
    if ts == [] {
      q := p;
    } else {
      var t, m' := ts[0], Step(m, ts[0]).m;
      FeedKeepsErrors(m', ts[1..]);
      StepKeepsErrors(m, t);
      if t.Comment? || (t.Break? && Open(m.state)) {
        q := FeedPlace(m', p, ts[1..]);
      } else {
        var p' := StepPlace(m, p, t);
        OpenAfter(m, t);
        q := FeedPlace(m', p', ts[1..]);
        Associative(PlaceTokens(p), [t], Skim(ts[1..], t.Bind?));
      }
    }
  }

  // ------------------------------------------------------------------ reading a place

  /** A last line that lacks only its line break: `p => ext` is complete. */
  predicate HasTail(p: Place) {
    p.head.Some? && |p.piece| == 3 && p.piece[0].Port? && p.piece[1].External? && p.piece[2].Port?
  }

  /** The tokens of the started piece that leave no trace in the graph. */
  function Dropped(p: Place): seq<Token> {
    if HasTail(p) then [] else p.piece
  }

  function MeanBody(g: CoreGraph, head: Option<Head>, links: seq<Link>): CoreGraph {
    if head.None? then g else MeanLinks(MeanHead(g, head.value), head.value, links)
  }

  /** Whole lines, then the head, links and tail of the last one. */
  function MeanPlace(p: Place): CoreGraph {
    var g := MeanBody(MeanLines(Empty, p.lines), p.head, p.links);
    if HasTail(p) then MeanTail(g, Last(p.head.value, p.links).name, Some(Tail(p.piece[0].name, p.piece[0].elem, p.piece[2].name, p.piece[2].elem)))
    else g
  }

  lemma {:induction false} PieceRead(m: Machine, p: Place, s: State)
    requires Fits(s, p) && m.errors == []
    requires p.head.None? ==> m.state == AtBreak && m.stack == []
    requires p.head.Some? ==> m.state == AtCompo && m.stack == [Last(p.head.value, p.links)]
    ensures Feed(m, p.piece).Running? && Feed(m, p.piece).m.errors == [] && Feed(m, p.piece).m.state == s
    ensures Feed(m, p.piece).m.graph ==
      if HasTail(p) then MeanTail(m.graph, Last(p.head.value, p.links).name, Some(Tail(p.piece[0].name, p.piece[0].elem, p.piece[2].name, p.piece[2].elem)))
      else m.graph
  {
    if |p.piece| == 1 {
      assert p.piece == [p.piece[0]];
      Feed1(m, p.piece[0]);
    } else if |p.piece| == 2 {
      assert p.piece == [p.piece[0]] + [p.piece[1]];
      Feed1(m, p.piece[0]);
      FeedSnoc(m, [p.piece[0]], p.piece[1]);
    } else if |p.piece| == 3 {
      assert p.piece == [p.piece[0], p.piece[1], p.piece[2]];
      Feed3(m, p.piece[0], p.piece[1], p.piece[2]);
    }
  }

  /** Every place can be read, from the start, to its meaning. */
  lemma {:induction false} PlaceRead(p: Place, s: State)
    requires Fits(s, p)
    ensures var o := Feed(Start, PlaceTokens(p)); o.Running? && o.m.errors == [] && o.m.state == s && o.m.graph == MeanPlace(p)
  {
    var lines, body := LinesTokens(p.lines), Body(p.head, p.links);
    LinesRead(Start, p.lines);
    var m := Feed(Start, lines).m;
    FeedConcat(Start, lines, body);
    if p.head.Some? {
      BodyRead(m, p.head.value, p.links);
    }
    var n := Feed(Start, lines + body).m;
    FeedConcat(Start, lines + body, p.piece);
    PieceRead(n, p, s);
  }

  // ------------------------------------------------------------------ the language

  /** A text is accepted exactly when, comments and line breaks after `->` apart, it is whole lines followed by a
      beginning of a line; the final state says which, and the text parses to the meaning of that place. */
  lemma AcceptsExactly(ts: seq<Token>)
    ensures Parse(ts).Graph? <==> exists p, s :: Fits(s, p) && PlaceTokens(p) == Kept(ts)
    ensures forall p, s :: Fits(s, p) && PlaceTokens(p) == Kept(ts) ==>
      Parse(ts) == Parsed.Graph(MeanPlace(p)) && Feed(Start, ts).m.state == s
  {
    SkimAlike(Start, Start, ts, false);
    forall p, s | Fits(s, p) && PlaceTokens(p) == Kept(ts)
      ensures Parse(ts) == Parsed.Graph(MeanPlace(p)) && Feed(Start, ts).m.state == s
    {
      PlaceRead(p, s);
    }
    if Parse(ts).Graph? {
      var p := StandsAt(ts);
    }
  }

  lemma StandsAt(ts: seq<Token>) returns (p: Place)
    requires Parse(ts).Graph?
    ensures Fits(Feed(Start, ts).m.state, p) && PlaceTokens(p) == Kept(ts)
  {
    var empty := Place([], None, [], []);
    assert PlaceTokens(empty) == [];
    p := FeedPlace(Start, empty, ts);
  }

  /** Whole lines are the texts accepted up to a line start, and parse to their meaning. */
  lemma AcceptsExactlyLines(ts: seq<Token>)
    ensures Parse(ts).Graph? && Feed(Start, ts).m.state == AtBreak <==> exists ls :: LinesTokens(ls) == Kept(ts)
    ensures forall ls :: LinesTokens(ls) == Kept(ts) ==> Parse(ts) == Parsed.Graph(MeanLines(Empty, ls))
  {
    AcceptsExactly(ts);
    forall ls | LinesTokens(ls) == Kept(ts)
      ensures Parse(ts) == Parsed.Graph(MeanLines(Empty, ls)) && Feed(Start, ts).m.state == AtBreak
    {
      var p := Place(ls, None, [], []);
      assert Fits(AtBreak, p) && PlaceTokens(p) == LinesTokens(ls);
    }
    if Parse(ts).Graph? && Feed(Start, ts).m.state == AtBreak {
      var p := StandsAt(ts);
      assert PlaceTokens(p) == LinesTokens(p.lines);
    }
  }

  // ------------------------------------------------------------------ what is lost

  /** The states in which the last line is complete but for its line break. */
  predicate Complete(s: State) {
    s == AtBreak || s == AtCompo || s == CompPortExternalPort
  }

  /** Of an accepted text, a started piece is dropped exactly when the text stops inside a statement. */
  lemma DropsIff(ts: seq<Token>, p: Place)
    requires Parse(ts).Graph? && Fits(Feed(Start, ts).m.state, p) && PlaceTokens(p) == Kept(ts)
    ensures Dropped(p) != [] <==> !Complete(Feed(Start, ts).m.state)
    ensures Dropped(p) != [] ==> MeanPlace(p) == MeanPlace(p.(piece := [])) && Parse(ts) == Parsed.Graph(MeanPlace(p.(piece := [])))
  {
    AcceptsExactly(ts);
  }

  predicate EndsInBind(ts: seq<Token>) {
    ts != [] && ts[|ts| - 1].Bind?
  }

  /** The lexer closes every text with a line break. Such a text is accepted exactly when it is whole lines, or whole
      lines and a beginning of a line that ends in `->`; in the second case, and only then, a piece of it is dropped. */
  lemma DropsFinalBinds(ts: seq<Token>)
    requires ts != [] && ts[|ts| - 1].Break?
    ensures Parse(ts).Graph? <==>
      || (exists ls :: LinesTokens(ls) == Kept(ts))
      || (exists p, s :: Fits(s, p) && PlaceTokens(p) == Kept(ts) && EndsInBind(p.piece))
    ensures Parse(ts).Graph? ==> (EndsInBind(Kept(ts)) <==> !Complete(Feed(Start, ts).m.state))
    ensures Parse(ts).Graph? ==> (EndsInBind(Kept(ts)) <==> !exists ls :: LinesTokens(ls) == Kept(ts))
  {
    AcceptsExactly(ts);
    AcceptsExactlyLines(ts);
    if Parse(ts).Graph? {
      var s := Feed(Start, ts).m.state;
      AfterBreak(ts);
      var p := StandsAt(ts);
      PlaceEnds(p, s);
    }
  }

  /** An accepted text that closes with a line break stands at a line start or right after a `->`. */
  lemma AfterBreak(ts: seq<Token>)
    requires ts != [] && ts[|ts| - 1].Break? && Parse(ts).Graph?
    ensures var s := Feed(Start, ts).m.state; s == AtBreak || s == CompPortBind || s == MsgBind
  {
    var before := ts[..|ts| - 1];
    assert ts == before + [Break];
    LastStep(Start, before, Break);
    BreakStates(Feed(Start, before).m);
    var p := StandsAt(ts);
  }

  lemma {:induction false} LastStep(m: Machine, before: seq<Token>, t: Token)
    requires Feed(m, before + [t]).Running?
    ensures Feed(m, before).Running? && Feed(m, before + [t]) == Step(Feed(m, before).m, t)
  {
    FeedConcat(m, before, [t]);
    if Feed(m, before).Running? {
      Feed1(Feed(m, before).m, t);
    }
  }

  lemma BreakStates(m: Machine)
    requires Step(m, Break).Running?
    ensures var s := Step(m, Break).m.state; s == AtBreak || s == CompPortBind || s == MsgBind || s == ErrorS
  {
  }

  lemma {:induction false} PlaceEnds(p: Place, s: State)
    requires Fits(s, p) && (s == AtBreak || s == CompPortBind || s == MsgBind)
    ensures EndsInBind(PlaceTokens(p)) <==> s != AtBreak
    ensures s != AtBreak ==> EndsInBind(p.piece)
  {
    if s == AtBreak {
      assert PlaceTokens(p) == LinesTokens(p.lines);
      if p.lines != [] {
        var l := p.lines[|p.lines| - 1];
        assert LineTokens(l)[|LineTokens(l)| - 1] == Break;
      }
    }
  }

  lemma {:induction false} CutEdgeKept()
    ensures Kept([Comp("a", None), Port("p", None), Bind, Break]) == [Comp("a", None), Port("p", None), Bind]
  {
    var ts := [Comp("a", None), Port("p", None), Bind, Break];
    assert ts[1..] == [Port("p", None), Bind, Break] && ts[1..][1..] == [Bind, Break] && ts[1..][1..][1..] == [Break];
    assert Skim([Break], true) == [];
    assert Skim([Bind, Break], false) == [Bind];
  }

  /** The edge begun on a last line that ends in `->` is lost without an error. */
  lemma {:induction false} EdgeLost()
    ensures Parse([Comp("a", None), Port("p", None), Bind, Break]) == Parsed.Graph(Empty)
  {
    var p := Place([], Some(FromComp("a", None)), [], [Port("p", None), Bind]);
    var ts := [Comp("a", None), Port("p", None), Bind, Break];
    assert Fits(CompPortBind, p);
    CutEdgeKept();
    assert LinksTokens([]) == [] && LinesTokens([]) == [];
    assert PlaceTokens(p) == [Comp("a", None), Port("p", None), Bind];
    AcceptsExactly(ts);
  }
}
