// What the parser reports: every error with its line, the token found and the kinds expected; and how far the kinds it says
// it expects are the ones it accepts.
module ParserErrors {
  import opened Wrappers
  import opened Graph
  import opened Parser
  import opened ParserProofs
  import opened ParserChains

  // ------------------------------------------------------------------ what is expected

  datatype Kind = AComp | APort | AMsg | ABind | AnExternal | ABreak

  function KindOf(t: Token): Kind
    requires !t.Comment?
  {
    match t
    case Comp(_, _) => AComp
    case Port(_, _) => APort
    case Msg(_) => AMsg
    case Bind => ABind
    case External => AnExternal
    case Break => ABreak
  }

  function KindName(k: Kind): string {
    match k
    case AComp => "Component"
    case APort => "Port"
    case AMsg => "IMSG"
    case ABind => "->"
    case AnExternal => "=>"
    case ABreak => "NewLine"
  }

  function Listing(ks: seq<Kind>): string {
    "[" + Names(ks) + "]"
  }

  function Names(ks: seq<Kind>): string {
    if ks == [] then "" else if |ks| == 1 then KindName(ks[0]) else KindName(ks[0]) + ", " + Names(ks[1..])
  }

  /** The kinds that the message of a state names. */
  function Told(s: State): seq<Kind>
    requires s != ErrorS
  {
    match s
    case AtBreak => [AComp, APort, AMsg, ABreak]
    case AtCompo => [APort, ABreak]
    case AtPort => [AComp, ABind, AnExternal]
    case AtMsg => [ABind]
    case CompPort => [ABind, AnExternal]
    case CompPortBind => [APort]
    case CompPortBindPort => [AComp]
    case CompPortExternal => [APort]
    case CompPortExternalPort => [ABreak]
    case PortExternal => [APort]
    case PortExternalPort => [AComp]
    case MsgBind => [APort]
    case MsgBindPort => [AComp]
  }

  lemma Names2(a: Kind, b: Kind)
    ensures Names([a, b]) == KindName(a) + ", " + KindName(b)
  {
    assert [a, b][1..] == [b];
  }

  lemma Names3(a: Kind, b: Kind, c: Kind)
    ensures Names([a, b, c]) == KindName(a) + ", " + Names([b, c])
  {
    assert [a, b, c][1..] == [b, c];
  }

  lemma Names4(a: Kind, b: Kind, c: Kind, d: Kind)
    ensures Names([a, b, c, d]) == KindName(a) + ", " + Names([b, c, d])
  {
    assert [a, b, c, d][1..] == [b, c, d];
  }

  lemma ToldIsExpected(s: State)
    requires s != ErrorS
    ensures GetExpected(s) == Some(Listing(Told(s)))
  {
    if s == AtBreak {
      LineStartExpected();
    } else if s == AtPort {
      PortExpected();
    } else if s == AtCompo {
      Names2(APort, ABreak);
      assert Listing(Told(s)) == "[Port, NewLine]";
    } else if s == CompPort {
      Names2(ABind, AnExternal);
      assert Listing(Told(s)) == "[->, =>]";
    } else {
      assert Listing([APort]) == "[Port]" && Listing([AComp]) == "[Component]";
      assert Listing([ABind]) == "[->]" && Listing([ABreak]) == "[NewLine]";
    }
  }

  lemma LineStartExpected()
    ensures Listing(Told(AtBreak)) == "[Component, Port, IMSG, NewLine]"
  {
    Names4(AComp, APort, AMsg, ABreak);
    Names3(APort, AMsg, ABreak);
    Names2(AMsg, ABreak);
  }

  lemma PortExpected()
    ensures Listing(Told(AtPort)) == "[Component, ->, =>]"
  {
    Names3(AComp, ABind, AnExternal);
    Names2(ABind, AnExternal);
  }

  /** The token is reported as a syntax error. */
  predicate Refused(m: Machine, t: Token) {
    var o := Step(m, t);
    o.Running? && |o.m.errors| > |m.errors|
  }

  /** get_expected names exactly the kinds that are accepted, but for these: after a port at the start of a line a component
      and a `->` are named and refused, and after a `->` a line break is accepted and not named. */
  lemma ExpectedIff(m: Machine, t: Token)
    requires m.state != ErrorS && !t.Comment?
    ensures GetExpected(m.state) == Some(Listing(Told(m.state)))
    ensures (Refused(m, t) <==> KindOf(t) !in Told(m.state)) <==>
      !((m.state == AtPort && (t.Comp? || t.Bind?)) || ((m.state == CompPortBind || m.state == MsgBind) && t.Break?))
  {
    ToldIsExpected(m.state);
  }

  // ------------------------------------------------------------------ what is reported

  function Breaks(ts: seq<Token>): nat {
    if ts == [] then 0 else Breaks(ts[..|ts| - 1]) + if ts[|ts| - 1].Break? then 1 else 0
  }

  /** The errors of a text: one for each token that is refused, on the line on which it ends. */
  function Reports(ts: seq<Token>): seq<SyntaxError>
    decreases |ts|
  {
    if ts == [] then []
    else
      var init, t := ts[..|ts| - 1], ts[|ts| - 1];
      var before := Feed(Start, init);
      Reports(init) +
      if before.Running? && before.m.state != ErrorS && Refused(before.m, t)
      then [SyntaxError(1 + Breaks(ts), t, Listing(Told(before.m.state)))] else []
  }

  lemma StepReports(m: Machine, t: Token)
    requires Step(m, t).Running?
    ensures Step(m, t).m.line == m.line + if t.Break? then 1 else 0
    ensures Step(m, t).m.errors == m.errors +
      if m.state != ErrorS && Refused(m, t) then [SyntaxError(Step(m, t).m.line, t, Listing(Told(m.state)))] else []
  {
    if m.state != ErrorS {
      ToldIsExpected(m.state);
    }
  }

  /** The errors reported are exactly these, in order; the line counter is one more than the line breaks so far. */
  lemma {:induction false} ReportsExactly(ts: seq<Token>)
    requires Feed(Start, ts).Running?
    ensures Feed(Start, ts).m.errors == Reports(ts) && Feed(Start, ts).m.line == 1 + Breaks(ts)
    decreases |ts|
  {
    if ts != [] {
      var init, t := ts[..|ts| - 1], ts[|ts| - 1];
      assert ts == init + [t];
      FeedConcat(Start, init, [t]);
      FeedSnoc(Start, init, t);
      ReportsExactly(init);
      StepReports(Feed(Start, init).m, t);
    }
  }

  // ------------------------------------------------------------------ recovery

  /** After an error everything up to the next component or message is skipped. */
  lemma {:induction false} Skips(m: Machine, ts: seq<Token>)
    requires m.state == ErrorS && forall t :: t in ts ==> !t.Comp? && !t.Msg?
    ensures Feed(m, ts).Running?
    ensures Feed(m, ts).m.state == ErrorS && Feed(m, ts).m.errors == m.errors && Feed(m, ts).m.graph == m.graph
    decreases |ts|
  {
    if ts != [] {
      Skips(Step(m, ts[0]).m, ts[1..]);
    }
  }

  predicate SameErrors(es: seq<SyntaxError>, fs: seq<SyntaxError>) {
    |es| == |fs| && forall k :: 0 <= k < |es| ==> SameError(es[k], fs[k])
  }

  /** The errors reported from m to m' and from n to n' are the same but for their lines. */
  predicate SameNews(m: Machine, m': Machine, n: Machine, n': Machine) {
    && m.errors <= m'.errors && n.errors <= n'.errors
    && SameErrors(m'.errors[|m.errors|..], n'.errors[|n.errors|..])
  }

  predicate SameMove(m: Machine, n: Machine, o: Outcome, q: Outcome) {
    o.Running? && q.Running? ==>
      o.m.state == q.m.state && (|o.m.errors| > |m.errors| <==> |q.m.errors| > |n.errors|)
  }

  lemma PortSameMove(m: Machine, n: Machine, t: Token)
    requires m.state == n.state && t.Port?
    ensures SameMove(m, n, OnPort(m, t), OnPort(n, t))
  {
  }

  lemma CompSameMove(m: Machine, n: Machine, t: Token)
    requires m.state == n.state && t.Comp?
    ensures SameMove(m, n, OnComp(m, t), OnComp(n, t))
  {
  }

  lemma StepSameState(m: Machine, n: Machine, t: Token)
    requires m.state == n.state && Step(m, t).Running? && Step(n, t).Running?
    ensures Step(m, t).m.state == Step(n, t).m.state && (Refused(m, t) <==> Refused(n, t))
  {
    if t.Port? {
      PortSameMove(m, n, t);
    } else if t.Comp? {
      CompSameMove(m, n, t);
    }
  }

  lemma StepSameNews(m: Machine, n: Machine, t: Token)
    requires m.state == n.state && Step(m, t).Running? && Step(n, t).Running?
    ensures Step(m, t).m.state == Step(n, t).m.state && SameNews(m, Step(m, t).m, n, Step(n, t).m)
  {
    StepReports(m, t);
    StepReports(n, t);
    StepSameState(m, n, t);
  }

  lemma NewsChain(m: Machine, m1: Machine, m2: Machine, n: Machine, n1: Machine, n2: Machine)
    requires SameNews(m, m1, n, n1) && SameNews(m1, m2, n1, n2)
    ensures SameNews(m, m2, n, n2)
  {
    assert m2.errors[|m.errors|..] == m1.errors[|m.errors|..] + m2.errors[|m1.errors|..];
    assert n2.errors[|n.errors|..] == n1.errors[|n.errors|..] + n2.errors[|n1.errors|..];
  }

  /** What is reported depends on the state alone, not on the stack. */
  lemma {:induction false} SameFrom(m: Machine, n: Machine, ts: seq<Token>)
    requires m.state == n.state && Feed(m, ts).Running? && Feed(n, ts).Running?
    ensures Feed(m, ts).m.state == Feed(n, ts).m.state && SameNews(m, Feed(m, ts).m, n, Feed(n, ts).m)
    decreases |ts|
  {
    if ts != [] {
      var m1, n1 := Step(m, ts[0]).m, Step(n, ts[0]).m;
      StepSameNews(m, n, ts[0]);
      SameFrom(m1, n1, ts[1..]);
      NewsChain(m, m1, Feed(m, ts).m, n, n1, Feed(n, ts).m);
    }
  }

  /** At a component or a message the parser recovers: from there on it reports what it would report at a line start,
      unless one of the two fails internally. */
  lemma {:induction false} Recovers(m: Machine, n: Machine, ts: seq<Token>)
    requires m.state == ErrorS && n.state == AtBreak && ts != [] && (ts[0].Comp? || ts[0].Msg?)
    requires Feed(m, ts).Running? && Feed(n, ts).Running?
    ensures Feed(m, ts).m.state == Feed(n, ts).m.state && SameNews(m, Feed(m, ts).m, n, Feed(n, ts).m)
  {
    var m1, n1 := Step(m, ts[0]).m, Step(n, ts[0]).m;
    SameFrom(m1, n1, ts[1..]);
    NewsChain(m, m1, Feed(m, ts).m, n, n1, Feed(n, ts).m);
  }
}
