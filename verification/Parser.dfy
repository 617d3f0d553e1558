// The flowscript semantic parser (nodes/fvm/rs/parser/semantic/lib.rs): a state machine with a token stack
// that builds a graph. `Step` is one token; the method ParseStream is the loop over the stream.
module Parser {
  import opened Wrappers
  import opened Graph

  datatype Token =
    | Bind | External | Comment | Break
    | Comp(name: string, sort: Option<string>)
    | Port(name: string, elem: Option<string>)
    | Msg(text: string)

  datatype State =
    | AtBreak | AtCompo | AtPort | AtMsg
    | CompPort | CompPortBind | CompPortBindPort
    | CompPortExternal | CompPortExternalPort
    | PortExternal | PortExternalPort
    | MsgBind | MsgBindPort
    | ErrorS

  /** A syntax error: its line, the token found and what get_expected answered. */
  datatype SyntaxError = SyntaxError(line: nat, found: Token, expected: string)

  datatype Machine = Machine(state: State, stack: seq<Token>, graph: CoreGraph, errors: seq<SyntaxError>, line: nat)

  /** Where the source has an `unreachable!()`. */
  datatype Site = InGetExpected | OnStack

  /** StackProblem is the early return on an empty stack, Unreachable a hit `unreachable!()`. */
  datatype Outcome = Running(m: Machine) | StackProblem | Unreachable(site: Site)

  const Start := Machine(AtBreak, [], Empty, [], 1)

  /** None stands for the `unreachable!()` of the error state. */
  function GetExpected(s: State): Option<string> {
    match s
    case AtBreak => Some("[Component, Port, IMSG, NewLine]")
    case AtCompo => Some("[Port, NewLine]")
    case AtPort => Some("[Component, ->, =>]")
    case AtMsg => Some("[->]")
    case CompPort => Some("[->, =>]")
    case CompPortBind => Some("[Port]")
    case CompPortBindPort => Some("[Component]")
    case CompPortExternal => Some("[Port]")
    case CompPortExternalPort => Some("[NewLine]")
    case PortExternal => Some("[Port]")
    case PortExternalPort => Some("[Component]")
    case MsgBind => Some("[Port]")
    case MsgBindPort => Some("[Component]")
    case ErrorS => None
  }

  function Fail(m: Machine, t: Token): Outcome {
    match GetExpected(m.state)
    case None => Unreachable(InGetExpected)
    case Some(e) => Running(m.(state := ErrorS, errors := m.errors + [SyntaxError(m.line, t, e)]))
  }

  function Goto(m: Machine, s: State): Outcome {
    Running(m.(state := s))
  }

  function PushGoto(m: Machine, t: Token, s: State): Outcome {
    Running(m.(state := s, stack := m.stack + [t]))
  }

  function OnBind(m: Machine): Outcome {
    match m.state
    case CompPort => Goto(m, CompPortBind)
    case ErrorS => Goto(m, ErrorS)
    case AtMsg => Goto(m, MsgBind)
    case _ => Fail(m, Bind)
  }

  function OnExternal(m: Machine): Outcome {
    match m.state
    case CompPort => Goto(m, CompPortExternal)
    case AtPort => Goto(m, PortExternal)
    case ErrorS => Goto(m, ErrorS)
    case _ => Fail(m, External)
  }

  /** `out() p => port`: pop the port and the component. */
  function CloseExtOut(m: Machine, port: string): Outcome {
    var n := |m.stack|;
    if n < 2 then StackProblem
    else if !m.stack[n - 2].Comp? || !m.stack[n - 1].Port? then Unreachable(OnStack)
    else
      var out, p := m.stack[n - 2], m.stack[n - 1];
      Running(m.(state := CompPortExternalPort, stack := m.stack[..n - 2],
                 graph := m.graph.(extOut := m.graph.extOut + [ExtOut(port, p.name, p.elem, out.name)])))
  }

  function OnPort(m: Machine, t: Token): Outcome
    requires t.Port?
  {
    match m.state
    case AtCompo => PushGoto(m, t, CompPort)
    case CompPortBind => PushGoto(m, t, CompPortBindPort)
    case CompPortExternal => CloseExtOut(m, t.name)
    case AtBreak => PushGoto(m, t, AtPort)
    case PortExternal => PushGoto(m, t, PortExternalPort)
    case ErrorS => PushGoto(m, t, ErrorS)
    case MsgBind => PushGoto(m, t, MsgBindPort)
    case _ => Fail(m, t)
  }

  /** `out() p -> q in()`: pop the two ports and the component, and continue from `in()`. */
  function CloseEdge(m: Machine, t: Token): Outcome
    requires t.Comp?
  {
    var n := |m.stack|;
    if n < 3 then StackProblem
    else if !m.stack[n - 1].Port? || !m.stack[n - 2].Port? || !m.stack[n - 3].Comp? then Unreachable(OnStack)
    else
      var out, p, q := m.stack[n - 3], m.stack[n - 2], m.stack[n - 1];
      Running(m.(state := AtCompo, stack := m.stack[..n - 3] + [t],
                 graph := m.graph.(edges := m.graph.edges + [Edge(out.name, p.name, p.elem, q.name, q.elem, t.name)])))
  }

  /** `p => q in()` */
  function CloseExtIn(m: Machine, t: Token): Outcome
    requires t.Comp?
  {
    var n := |m.stack|;
    if n < 2 then StackProblem
    else if !m.stack[n - 1].Port? || !m.stack[n - 2].Port? then Unreachable(OnStack)
    else
      var p, q := m.stack[n - 2], m.stack[n - 1];
      Running(m.(state := AtCompo, stack := m.stack[..n - 2] + [t],
                 graph := m.graph.(extIn := m.graph.extIn + [ExtIn(p.name, q.name, q.elem, t.name)])))
  }

  /** `'text' -> q in()` */
  function CloseMsg(m: Machine, t: Token): Outcome
    requires t.Comp?
  {
    var n := |m.stack|;
    if n < 2 then StackProblem
    else if !m.stack[n - 1].Port? || !m.stack[n - 2].Msg? then Unreachable(OnStack)
    else
      var text, q := m.stack[n - 2], m.stack[n - 1];
      Running(m.(state := AtCompo, stack := m.stack[..n - 2] + [t],
                 graph := m.graph.(imsgs := m.graph.imsgs + [IMsg(text.text, q.name, q.elem, t.name)])))
  }

  /** A component with a non-empty sort declares a node, whatever the state. */
  function Declare(m: Machine, t: Token): Machine
    requires t.Comp?
  {
    if t.sort.Some? && t.sort.value != "" then m.(graph := m.graph.(nodes := m.graph.nodes + [Node(t.name, t.sort.value)]))
    else m
  }

  function OnComp(m0: Machine, t: Token): Outcome
    requires t.Comp?
  {
    var m := Declare(m0, t);
    match m.state
    case CompPortBindPort => CloseEdge(m, t)
    case PortExternalPort => CloseExtIn(m, t)
    case MsgBindPort => CloseMsg(m, t)
    case AtBreak => PushGoto(m, t, AtCompo)
    case ErrorS => Goto(m, AtCompo)
    case _ => Fail(m, t)
  }

  function OnMsg(m: Machine, t: Token): Outcome
    requires t.Msg?
  {
    match m.state
    case ErrorS => PushGoto(m, t, AtMsg)
    case AtBreak => PushGoto(m, t, AtMsg)
    case _ => Fail(m, t)
  }

  function OnBreak(m0: Machine): Outcome {
    var m := m0.(line := m0.line + 1);
    match m.state
    case CompPortBind => Running(m)
    case MsgBind => Running(m)
    case AtCompo => Running(m.(state := AtBreak, stack := []))
    case CompPortExternalPort => Running(m.(state := AtBreak, stack := []))
    case AtBreak => Running(m)
    case ErrorS => Running(m)
    case _ => Fail(m, Break)
  }

  function Step(m: Machine, t: Token): Outcome {
    match t
    case Bind => OnBind(m)
    case External => OnExternal(m)
    case Port(_, _) => OnPort(m, t)
    case Comp(_, _) => OnComp(m, t)
    case Msg(_) => OnMsg(m, t)
    case Break => OnBreak(m)
    case Comment => Running(m)
  }

  function Feed(m: Machine, ts: seq<Token>): Outcome
    decreases |ts|
  {
    if ts == [] then Running(m)
    else match Step(m, ts[0])
      case Running(m') => Feed(m', ts[1..])
      case StackProblem => StackProblem
      case Unreachable(site) => Unreachable(site)
  }

  /** handle_stream: the graph, or the syntax errors, or one of the two internal failures. */
  datatype Parsed = Graph(graph: CoreGraph) | Errors(errors: seq<SyntaxError>) | Internal(outcome: Outcome)

  function Finish(o: Outcome): Parsed {
    if !o.Running? then Internal(o)
    else if o.m.errors != [] then Errors(o.m.errors)
    else Parsed.Graph(o.m.graph)
  }

  function Parse(ts: seq<Token>): Parsed {
    Finish(Feed(Start, ts))
  }

  /** The receive loop of handle_stream over the tokens up to the end of the stream. */
  method ParseStream(ts: seq<Token>) returns (r: Parsed)
    ensures r == Parse(ts)
  {
    var m := Start;
    var rest := ts;
    while rest != []
      invariant Feed(Start, ts) == Feed(m, rest)
      decreases |rest|
    {
      var o := Step(m, rest[0]);
      if !o.Running? {
        return Internal(o);
      }
      m, rest := o.m, rest[1..];
    }
    r := if |m.errors| > 0 then Errors(m.errors) else Parsed.Graph(m.graph);
  }
}
