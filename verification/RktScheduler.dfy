// The Racket scheduler: one pure function from a state and a message to the next state and its effects
// (modules/rkt/rkt-fbp/scheduler.rkt).
module RktScheduler {
  import opened Wrappers
  import opened RktAgent

  datatype Msg =
    | AddAgent(name: string, opt: OptAgent)
    | RemoveAgent(name: string)
    | Connect(out: string, portOut: string, in_: string, portIn: string)
    | ConnectFromArray(out: string, portOut: string, selOut: string, in_: string, portIn: string)
    | ConnectIntoArray(out: string, portOut: string, in_: string, portIn: string, selIn: string)
    | ConnectBothArrays(out: string, portOut: string, selOut: string, in_: string, portIn: string, selIn: string)
    | Disconnect(out: string, portOut: string)
    | DisconnectFromArray(out: string, portOut: string, selOut: string)
    | DisconnectIntoArray(out: string, portOut: string, in_: string, portIn: string, selIn: string)
    | DisconnectBothArrays(out: string, portOut: string, selOut: string, in_: string, portIn: string, selIn: string)
    | RawConnect(out: string, portOut: string, sender: ChanId)
    | UpdateAgent(agt: string, state: Agent)
    | Mesg(agt: string, port: string, payload: Payload)
    | IncIp(agt: string)
    | DecIp(agt: string)
    | RunEnd(agt: string)
    | StartAll
    | StartAgent(agt: string)
    | Stop
    | Other

  datatype AgentState = AgentState(agent: Agent, ips: int, isRunning: bool)

  datatype Sched = Sched(agents: map<string, AgentState>, running: int, willStop: bool)

  const InitSched := Sched(map[], 0, false)

  /** `made` are the channels created, `spawned` the agents given a thread, in order, and `send` the packet
      the loop has to put itself. Crash: a hash-ref raised and the loop thread is dead. */
  datatype Effect =
    | Effect(st: Sched, made: seq<Chan>, spawned: seq<string>, send: Option<(ChanId, Payload)>)
    | Crash

  function Just(st: Sched): Effect {
    Effect(st, [], [], None)
  }

  function WithAgent(st: Sched, name: string, agt: Agent): Sched
    requires name in st.agents
  {
    st.(agents := st.agents[name := st.agents[name].(agent := agt)])
  }

  function Replace(st: Sched, name: string, agt: Option<Agent>): Effect
    requires name in st.agents
  {
    if agt.None? then Crash else Just(WithAgent(st, name, agt.value))
  }

  /** Both ends change: the receiving agent is stored first, then the sending one, each computed from the
      tables before the message. With one agent at both ends the second store hides the first. */
  function ReplaceBoth(st: Sched, in_: string, inAgt: Agent, out: string, outAgt: Option<Agent>, made: seq<Chan>): Effect
    requires in_ in st.agents && out in st.agents
  {
    if outAgt.None? then Crash
    else
      var st1 := WithAgent(st, in_, inAgt);
      Effect(st1.(agents := st1.agents[out := st.agents[out].(agent := outAgt.value)]), made, [], None)
  }

  /** exec-agent: run the agent if it is not running and, unless forced, has something to read. */
  function Exec(st: Sched, name: string, force: bool): (r: (Sched, seq<string>))
    requires name in st.agents
  {
    var a := st.agents[name];
    if !a.isRunning && (force || a.ips > 0) then
      (st.(agents := st.agents[name := a.(isRunning := true)], running := st.running + 1), [name])
    else (st, [])
  }

  function ExecEffect(st: Sched, name: string, force: bool): Effect {
    if name !in st.agents then Crash
    else
      var (st', spawned) := Exec(st, name, force);
      Effect(st', [], spawned, None)
  }

  /** The fold of msg-start over the agents, in the order the hash table is walked. */
  function StartEach(st: Sched, order: seq<string>): (Sched, seq<string>)
    decreases |order|
  {
    if order == [] then (st, [])
    else
      var (st1, spawned1) := StartEach(st, order[..|order| - 1]);
      var name := order[|order| - 1];
      if name in st1.agents && NoInput(st1.agents[name].agent) then
        var (st2, spawned2) := Exec(st1, name, true);
        (st2, spawned1 + spawned2)
      else (st1, spawned1)
  }

  function SharedPort(agt: Agent, name: string, port: string, sel: string, spare: ChanId): Option<(Shared, seq<Chan>)> {
    match ConnectToArray(agt, port, sel, spare)
    case None => None
    case Some(sh) => Some((sh, if sh.made then [Chan(name, true, false, [], 0)] else []))
  }

  /** scheduler-match; `next` is the number of channels that exist, `order` the walk of the agents hash. */
  function Handle(st: Sched, next: ChanId, m: Msg, order: seq<string>): Effect {
    match m
    case AddAgent(name, opt) =>
      Effect(st.(agents := st.agents[name := AgentState(MakeAgent(opt, next), 0, false)]), InChannels(opt, name), [], None)
    case RemoveAgent(name) => Just(st.(agents := st.agents - {name}))
    case Connect(out, po, in_, pi) =>
      if in_ !in st.agents || pi !in st.agents[in_].agent.inport || out !in st.agents then Crash
      else Just(WithAgent(st, out, ConnectOut(st.agents[out].agent, po, st.agents[in_].agent.inport[pi])))
    case ConnectFromArray(out, po, so, in_, pi) =>
      if in_ !in st.agents || pi !in st.agents[in_].agent.inport || out !in st.agents then Crash
      else Replace(st, out, ConnectArrayTo(st.agents[out].agent, po, so, st.agents[in_].agent.inport[pi]))
    case ConnectIntoArray(out, po, in_, pi, si) =>
      if in_ !in st.agents || out !in st.agents then Crash
      else
        (match SharedPort(st.agents[in_].agent, in_, pi, si, next)
         case None => Crash
         case Some((sh, made)) => ReplaceBoth(st, in_, sh.agt, out, Some(ConnectOut(st.agents[out].agent, po, sh.sender)), made))
    case ConnectBothArrays(out, po, so, in_, pi, si) =>
      if in_ !in st.agents || out !in st.agents then Crash
      else
        (match SharedPort(st.agents[in_].agent, in_, pi, si, next)
         case None => Crash
         case Some((sh, made)) => ReplaceBoth(st, in_, sh.agt, out, ConnectArrayTo(st.agents[out].agent, po, so, sh.sender), made))
    case Disconnect(out, po) =>
      if out !in st.agents then Crash else Just(WithAgent(st, out, DisconnectOut(st.agents[out].agent, po)))
    case DisconnectFromArray(out, po, so) =>
      if out !in st.agents then Crash else Replace(st, out, DisconnectArrayTo(st.agents[out].agent, po, so))
    case DisconnectIntoArray(out, po, in_, pi, si) =>
      if in_ !in st.agents || out !in st.agents then Crash
      else
        (match DisconnectToArray(st.agents[in_].agent, pi, si)
         case None => Crash
         case Some(inAgt) => ReplaceBoth(st, in_, inAgt, out, Some(DisconnectOut(st.agents[out].agent, po)), []))
    case DisconnectBothArrays(out, po, so, in_, pi, si) =>
      if in_ !in st.agents || out !in st.agents then Crash
      else
        (match DisconnectToArray(st.agents[in_].agent, pi, si)
         case None => Crash
         case Some(inAgt) => ReplaceBoth(st, in_, inAgt, out, DisconnectArrayTo(st.agents[out].agent, po, so), []))
    case RawConnect(out, po, sender) =>
      if out !in st.agents then Crash else Just(WithAgent(st, out, ConnectOut(st.agents[out].agent, po, sender)))
    case UpdateAgent(name, agt) =>
      if name !in st.agents then Crash else Just(WithAgent(st, name, agt))
    case Mesg(name, port, payload) =>
      if name !in st.agents || port !in st.agents[name].agent.inport then Crash
      else Effect(st, [], [], Some((st.agents[name].agent.inport[port], payload)))
    case IncIp(name) =>
      if name !in st.agents then Crash
      else
        var a := st.agents[name];
        ExecEffect(st.(agents := st.agents[name := a.(ips := a.ips + 1)]), name, false)
    case DecIp(name) =>
      if name !in st.agents then Crash
      else
        var a := st.agents[name];
        Just(st.(agents := st.agents[name := a.(ips := a.ips - 1)]))
    case RunEnd(name) =>
      if name !in st.agents then Crash
      else
        var a := st.agents[name];
        ExecEffect(st.(agents := st.agents[name := a.(isRunning := false)], running := st.running - 1), name, false)
    case StartAll =>
      var (st', spawned) := StartEach(st, order);
      Effect(st', [], spawned, None)
    case StartAgent(name) => ExecEffect(st, name, true)
    case Stop => Just(st.(willStop := true))
    case Other => Just(st)
  }
}
