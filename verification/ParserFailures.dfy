// Exactly when the parser fails internally, by an empty stack or an `unreachable!()`: recovery takes a component
// without pushing it, and if there is none on the stack, the next statement that closes over it breaks.
module ParserFailures {
  import opened Parser
  import opened ParserProofs

  // ------------------------------------------------------------------ the condition

  function Uncommented(ts: seq<Token>): seq<Token> {
    if ts == [] then []
    else (if ts[0].Comment? then [] else [ts[0]]) + Uncommented(ts[1..])
  }

  /** Line breaks, then `q in()`. */
  predicate ReceiverFollows(ts: seq<Token>) {
    ts != [] && if ts[0].Break? then ReceiverFollows(ts[1..]) else |ts| >= 2 && ts[0].Port? && ts[1].Comp?
  }

  /** The text goes on with `p => ext` or with `p -> q in()`. */
  predicate Closes(ts: seq<Token>) {
    && |ts| >= 3 && ts[0].Port?
    && ((ts[1].External? && ts[2].Port?) || (ts[1].Bind? && ReceiverFollows(ts[2..])))
  }

  /** No component on top. */
  predicate Bare(stack: seq<Token>) {
    stack == [] || !stack[|stack| - 1].Comp?
  }

  /** The error state takes a component, which it does not push, over a bare stack. */
  predicate Orphans(m: Machine, t: Token) {
    m.state == ErrorS && t.Comp? && Bare(m.stack)
  }

  /** Token k is such a component, and the text after it closes over it. */
  predicate Breaks(m: Machine, ts: seq<Token>, k: nat) {
    && k < |ts| && Feed(m, ts[..k]).Running?
    && Orphans(Feed(m, ts[..k]).m, ts[k]) && Closes(Uncommented(ts[k + 1..]))
  }

  /** How it fails then: the stack is too short, or holds something else. */
  function Failure(stack: seq<Token>): Outcome {
    if stack == [] then StackProblem else Unreachable(OnStack)
  }

  // ------------------------------------------------------------------ machines in and out of order

  /** What the state expects lies on top of the stack, whatever lies below. */
  predicate Well(m: Machine) {
    var s, n := m.stack, |m.stack|;
    match m.state
    case AtCompo => n >= 1 && s[n - 1].Comp?
    case AtPort => n >= 1 && s[n - 1].Port?
    case PortExternal => n >= 1 && s[n - 1].Port?
    case PortExternalPort => n >= 2 && s[n - 2].Port? && s[n - 1].Port?
    case AtMsg => n >= 1 && s[n - 1].Msg?
    case MsgBind => n >= 1 && s[n - 1].Msg?
    case MsgBindPort => n >= 2 && s[n - 2].Msg? && s[n - 1].Port?
    case CompPort => n >= 2 && s[n - 2].Comp? && s[n - 1].Port?
    case CompPortBind => n >= 2 && s[n - 2].Comp? && s[n - 1].Port?
    case CompPortExternal => n >= 2 && s[n - 2].Comp? && s[n - 1].Port?
    case CompPortBindPort => n >= 3 && s[n - 3].Comp? && s[n - 2].Port? && s[n - 1].Port?
    case _ => true
  }

  /** The ports above the missing component. */
  function Above(s: State): nat {
    match s
    case CompPort => 1
    case CompPortBind => 1
    case CompPortExternal => 1
    case CompPortBindPort => 2
    case _ => 0
  }

  predicate InLink(s: State) {
    s == AtCompo || s == CompPort || s == CompPortBind || s == CompPortExternal || s == CompPortBindPort
  }

  function Base(m: Machine): seq<Token>
    requires |m.stack| >= Above(m.state)
  {
    m.stack[..|m.stack| - Above(m.state)]
  }

  /** Only the component is missing. */
  predicate Loose(m: Machine) {
    && InLink(m.state) && |m.stack| >= Above(m.state) && Bare(Base(m))
    && forall k :: |m.stack| - Above(m.state) <= k < |m.stack| ==> m.stack[k].Port?
  }

  /** From a loose machine, `ts` closes over the missing component. */
  predicate Trips(s: State, ts: seq<Token>)
    decreases |ts|
  {
    ts != [] &&
    if ts[0].Comment? then Trips(s, ts[1..])
    else match s
      case AtCompo => ts[0].Port? && Trips(CompPort, ts[1..])
      case CompPort => (ts[0].External? && Trips(CompPortExternal, ts[1..])) || (ts[0].Bind? && Trips(CompPortBind, ts[1..]))
      case CompPortExternal => ts[0].Port?
      case CompPortBind => if ts[0].Break? then Trips(s, ts[1..]) else ts[0].Port? && Trips(CompPortBindPort, ts[1..])
      case CompPortBindPort => ts[0].Comp?
      case _ => false
  }

  /** The tokens that lead a loose machine on to the failure. */
  predicate Advances(s: State, t: Token) {
    t.Comment? || (s == AtCompo && t.Port?) || (s == CompPort && (t.Bind? || t.External?))
    || (s == CompPortBind && (t.Break? || t.Port?))
  }

  lemma LooseAdvances(m: Machine, t: Token)
    requires Loose(m)
    requires Advances(m.state, t)
    ensures Step(m, t).Running? && Loose(Step(m, t).m) && Base(Step(m, t).m) == Base(m)
  {
  }

  lemma LooseStep(m: Machine, t: Token)
    requires Loose(m)
    ensures !Step(m, t).Running? <==> (m.state == CompPortExternal && t.Port?) || (m.state == CompPortBindPort && t.Comp?)
    ensures !Step(m, t).Running? ==> Step(m, t) == Failure(Base(m))
    ensures Step(m, t).Running? && Advances(m.state, t) ==> Loose(Step(m, t).m) && Base(Step(m, t).m) == Base(m)
    ensures Step(m, t).Running? && !Advances(m.state, t) ==> Well(Step(m, t).m)
  {
    if m.state == CompPortExternal && t.Port? {
      assert m.stack[|m.stack| - 1].Port?;
    } else if m.state == CompPortBindPort && t.Comp? {
      assert m.stack[|m.stack| - 1].Port? && m.stack[|m.stack| - 2].Port?;
    } else if Advances(m.state, t) {
      LooseAdvances(m, t);
    }
  }

  lemma {:induction false} LooseFails(m: Machine, ts: seq<Token>)
    requires Loose(m) && Trips(m.state, ts)
    ensures Feed(m, ts) == Failure(Base(m))
    decreases |ts|
  {
    LooseStep(m, ts[0]);
    if Step(m, ts[0]).Running? {
      LooseFails(Step(m, ts[0]).m, ts[1..]);
    }
  }

  lemma WellPort(m: Machine, t: Token)
    requires Well(m) && t.Port?
    ensures OnPort(m, t).Running? && Well(OnPort(m, t).m)
  {
  }

  lemma WellClose(m: Machine, t: Token)
    requires Well(m) && t.Comp?
    ensures m.state == CompPortBindPort ==> CloseEdge(m, t).Running? && Well(CloseEdge(m, t).m)
    ensures m.state == PortExternalPort ==> CloseExtIn(m, t).Running? && Well(CloseExtIn(m, t).m)
    ensures m.state == MsgBindPort ==> CloseMsg(m, t).Running? && Well(CloseMsg(m, t).m)
  {
  }

  lemma WellComp(m: Machine, t: Token)
    requires Well(m) && t.Comp? && !Orphans(m, t)
    ensures OnComp(m, t).Running? && Well(OnComp(m, t).m)
  {
    var d := Declare(m, t);
    assert d.stack == m.stack && d.state == m.state && Well(d);
    WellClose(d, t);
  }

  lemma WellOther(m: Machine, t: Token)
    requires Well(m) && !t.Port? && !t.Comp?
    ensures Step(m, t).Running? && Well(Step(m, t).m)
  {
  }

  lemma WellStep(m: Machine, t: Token)
    requires Well(m)
    ensures Step(m, t).Running?
    ensures Orphans(m, t) ==> Step(m, t).m.state == AtCompo && Loose(Step(m, t).m) && Base(Step(m, t).m) == m.stack
    ensures !Orphans(m, t) ==> Well(Step(m, t).m)
  {
    if t.Port? {
      WellPort(m, t);
    } else if !t.Comp? {
      WellOther(m, t);
    } else if !Orphans(m, t) {
      WellComp(m, t);
    }
  }

  // ------------------------------------------------------------------ the two forms of the condition

  predicate NoComment(ts: seq<Token>) {
    forall t :: t in ts ==> !t.Comment?
  }

  lemma {:induction false} TripsUncommented(s: State, ts: seq<Token>)
    ensures Trips(s, ts) <==> Trips(s, Uncommented(ts))
    ensures NoComment(Uncommented(ts))
    decreases |ts|
  {
    if ts != [] {
      var us := Uncommented(ts[1..]);
      TripsUncommented(s, ts[1..]);
      TripsUncommented(CompPort, ts[1..]);
      TripsUncommented(CompPortExternal, ts[1..]);
      TripsUncommented(CompPortBind, ts[1..]);
      TripsUncommented(CompPortBindPort, ts[1..]);
      if ts[0].Comment? {
        assert Uncommented(ts) == us;
      } else {
        var vs := Uncommented(ts);
        assert vs[0] == ts[0] && vs[1..] == us;
      }
    }
  }

  lemma {:induction false} TripsIsReceiver(ts: seq<Token>)
    requires NoComment(ts)
    ensures Trips(CompPortBind, ts) <==> ReceiverFollows(ts)
  {
    if ts != [] && ts[0].Break? {
      TripsIsReceiver(ts[1..]);
    }
  }

  lemma {:induction false} TripsIsClosesPlain(ts: seq<Token>)
    requires NoComment(ts)
    ensures Trips(AtCompo, ts) <==> Closes(ts)
  {
    if |ts| >= 2 {
      var after := ts[2..];
      assert ts[1..][0] == ts[1] && ts[1..][1..] == after;
      assert after != [] ==> after[0] == ts[2];
      assert Trips(CompPort, ts[1..]) <==>
        (ts[1].External? && Trips(CompPortExternal, after)) || (ts[1].Bind? && Trips(CompPortBind, after));
      TripsIsReceiver(after);
    }
  }

  lemma {:induction false} TripsIsCloses(ts: seq<Token>)
    ensures Trips(AtCompo, ts) <==> Closes(Uncommented(ts))
  {
    TripsUncommented(AtCompo, ts);
    TripsIsClosesPlain(Uncommented(ts));
  }

  // ------------------------------------------------------------------ the result

  lemma BreaksLater(m: Machine, ts: seq<Token>, k: nat)
    requires ts != [] && Step(m, ts[0]).Running? && Breaks(Step(m, ts[0]).m, ts[1..], k)
    ensures Breaks(m, ts, k + 1)
  {
    assert ts[..k + 1][1..] == ts[1..][..k];
    assert ts[k + 2..] == ts[1..][k + 1..];
  }

  lemma {:induction false} LooseTrips(m: Machine, ts: seq<Token>)
    requires Loose(m) && ts != []
    requires Step(m, ts[0]).Running? ==> Loose(Step(m, ts[0]).m) && Trips(Step(m, ts[0]).m.state, ts[1..])
    ensures Trips(m.state, ts)
  {
    LooseStep(m, ts[0]);
    if Step(m, ts[0]).Running? {
      WellIsNotLoose(Step(m, ts[0]).m);
    }
  }

  lemma WellIsNotLoose(m: Machine)
    ensures !(Well(m) && Loose(m))
  {
  }

  lemma {:induction false} Located(m: Machine, ts: seq<Token>) returns (k: nat)
    requires Well(m) || Loose(m)
    requires !Feed(m, ts).Running?
    ensures Breaks(m, ts, k) || (Loose(m) && Trips(m.state, ts))
    decreases |ts|
  {
    k := 0;
    if Well(m) {
      WellStep(m, ts[0]);
      var n := Step(m, ts[0]).m;
      k := Located(n, ts[1..]);
      if Breaks(n, ts[1..], k) {
        BreaksLater(m, ts, k);
        k := k + 1;
      } else {
        WellIsNotLoose(n);
        TripsIsCloses(ts[1..]);
        assert ts[..0] == [];
        k := 0;
      }
    } else {
      LooseStep(m, ts[0]);
      if Step(m, ts[0]).Running? {
        var n := Step(m, ts[0]).m;
        k := Located(n, ts[1..]);
        if Breaks(n, ts[1..], k) {
          BreaksLater(m, ts, k);
          k := k + 1;
        } else {
          LooseTrips(m, ts);
        }
      } else {
        LooseTrips(m, ts);
      }
    }
  }

  lemma {:induction false} BreaksFails(m: Machine, ts: seq<Token>, k: nat)
    requires Breaks(m, ts, k)
    ensures Feed(m, ts) == Failure(Feed(m, ts[..k]).m.stack)
  {
    var o := Feed(m, ts[..k]);
    assert ts == ts[..k] + ts[k..];
    FeedConcat(m, ts[..k], ts[k..]);
    var n := Step(o.m, ts[k]).m;
    assert Loose(n) && Base(n) == o.m.stack;
    assert ts[k..][1..] == ts[k + 1..];
    TripsIsCloses(ts[k + 1..]);
    LooseFails(n, ts[k + 1..]);
  }

  /** The parser fails internally exactly when, at some token, the error state takes a component over a stack with
      no component on top and the text, comments apart, goes on with `p => ext` or `p -> q in()`; and then the empty
      stack and the wrong token on it are told apart as said. */
  lemma {:induction false} InternalFailureIff(ts: seq<Token>)
    ensures Parse(ts).Internal? <==> exists k: nat :: Breaks(Start, ts, k)
    ensures forall k: nat :: Breaks(Start, ts, k) ==> Parse(ts) == Internal(Failure(Feed(Start, ts[..k]).m.stack))
  {
    forall k: nat | Breaks(Start, ts, k) ensures Feed(Start, ts) == Failure(Feed(Start, ts[..k]).m.stack) {
      BreaksFails(Start, ts, k);
    }
    if !Feed(Start, ts).Running? {
      var k := Located(Start, ts);
    }
  }
}
