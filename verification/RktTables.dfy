// The port tables of the Racket agents: what make-agent makes of the declared ports, and what each message leaves at the
// sending ends.
module RktTables {
  import opened Wrappers
  import opened RktAgent
  import opened RktScheduler
  import opened RktHandlers

  // ------------------------------------------------------------------ a new agent

  lemma {:induction false} BuildInAt(inputs: seq<string>, next: ChanId, p: string)
    ensures p in BuildIn(inputs, next) <==> p in inputs
    ensures p in BuildIn(inputs, next) ==>
      var c := BuildIn(inputs, next)[p]; next <= c < next + |inputs| && inputs[c - next] == p
    decreases |inputs|
  {
    if inputs != [] {
      var n := |inputs| - 1;
      assert inputs == inputs[..n] + [inputs[n]];
      BuildInAt(inputs[..n], next, p);
    }
  }

  /** Port `p` of a new agent leads to a new channel of the agent, of the right kind. */
  ghost predicate MadeFor(name: string, p: string, c: ChanId, next: ChanId, made: seq<Chan>) {
    && next <= c < next + |made|
    && made[c - next].owner == name
    && made[c - next].queue == []
    && (made[c - next].synced <==> p != "acc" && p != "option")
    && (made[c - next].option <==> p == "option")
  }

  ghost predicate InputsMade(agt: Agent, name: string, opt: OptAgent, next: ChanId, made: seq<Chan>) {
    && (forall p :: p in agt.inport <==> p == "acc" || p == "option" || p in opt.inputs)
    && (forall p :: p in agt.inport ==> MadeFor(name, p, agt.inport[p], next, made))
    && (forall p, q :: p in agt.inport && q in agt.inport && agt.inport[p] == agt.inport[q] ==> p == q)
  }

  ghost predicate OutputsMade(agt: Agent, opt: OptAgent)
    requires "acc" in agt.inport
  {
    && (forall p :: p in agt.outport <==> p == "acc" || p in opt.outputs)
    && (forall p :: p in agt.outport ==> agt.outport[p] == if p == "acc" then Some(agt.inport["acc"]) else None)
  }

  ghost predicate ArraysMade(agt: Agent, opt: OptAgent) {
    && (forall p :: p in agt.inArray <==> p in opt.inArray) && (forall p :: p in agt.inArray ==> agt.inArray[p] == map[])
    && (forall p :: p in agt.outArray <==> p in opt.outArray) && (forall p :: p in agt.outArray ==> agt.outArray[p] == map[])
  }

  lemma {:induction false} MakesInputs(name: string, opt: OptAgent, next: ChanId)
    ensures InputsMade(MakeAgent(opt, next), name, opt, next, InChannels(opt, name))
  {
    var inputs := Inputs(opt);
    var inport := BuildIn(inputs, next);
    forall p ensures p in inport <==> p == "acc" || p == "option" || p in opt.inputs {
      BuildInAt(inputs, next, p);
      assert p in inputs <==> p in ["acc", "option"] || p in opt.inputs;
    }
    forall p | p in inport ensures MadeFor(name, p, inport[p], next, InChannels(opt, name)) {
      BuildInAt(inputs, next, p);
    }
    forall p, q | p in inport && q in inport && inport[p] == inport[q] ensures p == q {
      BuildInAt(inputs, next, p);
      BuildInAt(inputs, next, q);
    }
  }

  lemma MakesRest(name: string, opt: OptAgent, next: ChanId)
    requires "acc" in MakeAgent(opt, next).inport
    ensures OutputsMade(MakeAgent(opt, next), opt) && ArraysMade(MakeAgent(opt, next), opt)
  {
    assert forall p :: p in ["acc"] + opt.outputs <==> p == "acc" || p in opt.outputs;
  }

  /** After msg-add-agent: one input port for "acc", "option" and each declared input, each with a new channel of its own,
      which is synced but for those two; array ports without selections; outputs that are not connected, but for the
      accumulator, which leads back to the agent. */
  lemma {:induction false} AgentMade(st: Sched, next: ChanId, name: string, opt: OptAgent, order: seq<string>)
    ensures var e := Handle(st, next, AddAgent(name, opt), order);
      && e.Effect? && name in e.st.agents
      && var agt := e.st.agents[name].agent;
      InputsMade(agt, name, opt, next, e.made) && OutputsMade(agt, opt) && ArraysMade(agt, opt)
  {
    MakesInputs(name, opt, next);
    MakesRest(name, opt, next);
  }

  /** agent-no-input? holds of a new agent exactly if it declares no input of either kind beside those two. */
  lemma {:induction false} NoInputIff(opt: OptAgent, next: ChanId)
    ensures NoInput(MakeAgent(opt, next)) <==> opt.inArray == [] && forall p :: p in opt.inputs ==> p == "acc" || p == "option"
  {
    var inport := BuildIn(Inputs(opt), next);
    forall p ensures p in inport <==> p == "acc" || p == "option" || p in opt.inputs {
      BuildInAt(Inputs(opt), next, p);
      assert p in Inputs(opt) <==> p in ["acc", "option"] || p in opt.inputs;
    }
    assert "acc" in inport.Keys && "option" in inport.Keys;
    assert |"acc"| != |"option"|;
    TwoKeys(inport.Keys, "acc", "option");
    var inArray := MakeAgent(opt, next).inArray;
    assert inArray == map[] <==> opt.inArray == [] by {
      if opt.inArray != [] {
        assert opt.inArray[0] in inArray;
      }
    }
    assert |MakeAgent(opt, next).inport| == |inport.Keys|;
  }

  lemma TwoKeys(keys: set<string>, a: string, b: string)
    requires a in keys && b in keys && a != b
    ensures |keys| == 2 <==> keys == {a, b}
  {
    assert keys == {a, b} + (keys - {a, b});
    assert |{a, b}| == 2;
  }

  // ------------------------------------------------------------------ the sending ends

  /** What a simple output port of agent `n` leads to: None if it has no entry. */
  function OutAt(st: Sched, n: string, p: string): Option<Option<ChanId>>
    requires n in st.agents
  {
    var out := st.agents[n].agent.outport;
    if p in out then Some(out[p]) else None
  }

  function OutElementAt(st: Sched, n: string, p: string, sel: string): Option<ChanId>
    requires n in st.agents
  {
    var out := st.agents[n].agent.outArray;
    if p in out && sel in out[p] then Some(out[p][sel]) else None
  }

  /** The channel that a connect message connects to: the port named, the selection named, or a new channel for it. */
  function Receiver(st: Sched, next: ChanId, m: Msg): Option<ChanId> {
    match m
    case RawConnect(_, _, sender) => Some(sender)
    case Connect(_, _, in_, pi) =>
      if in_ in st.agents && pi in st.agents[in_].agent.inport then Some(st.agents[in_].agent.inport[pi]) else None
    case ConnectFromArray(_, _, _, in_, pi) =>
      if in_ in st.agents && pi in st.agents[in_].agent.inport then Some(st.agents[in_].agent.inport[pi]) else None
    case ConnectIntoArray(_, _, in_, pi, si) => if in_ in st.agents then Some(Shared(st.agents[in_].agent, pi, si, next)) else None
    case ConnectBothArrays(_, _, _, in_, pi, si) => if in_ in st.agents then Some(Shared(st.agents[in_].agent, pi, si, next)) else None
    case _ => None
  }

  function Shared(agt: Agent, port: string, sel: string, next: ChanId): ChanId {
    if port in agt.inArray && sel in agt.inArray[port] then agt.inArray[port][sel].chan else next
  }

  /** A simple output port after the message. */
  function NewOut(st: Sched, next: ChanId, m: Msg, n: string, p: string): Option<Option<ChanId>>
    requires n in st.agents
  {
    if (m.Connect? || m.ConnectIntoArray? || m.RawConnect?) && m.out == n && m.portOut == p then Some(Receiver(st, next, m))
    else if (m.Disconnect? || m.DisconnectIntoArray?) && m.out == n && m.portOut == p then Some(None)
    else OutAt(st, n, p)
  }

  /** An element of an array output port after the message. */
  function NewOutElement(st: Sched, next: ChanId, m: Msg, n: string, p: string, sel: string): Option<ChanId>
    requires n in st.agents
  {
    if (m.ConnectFromArray? || m.ConnectBothArrays?) && m.out == n && m.portOut == p && m.selOut == sel then Receiver(st, next, m)
    else if (m.DisconnectFromArray? || m.DisconnectBothArrays?) && m.out == n && m.portOut == p && m.selOut == sel then None
    else OutElementAt(st, n, p, sel)
  }

  /** The agent stays, and is not replaced as a whole. */
  predicate Stays(m: Msg, n: string) {
    (m.AddAgent? || m.RemoveAgent? ==> m.name != n) && (m.UpdateAgent? ==> m.agt != n)
  }

  ghost predicate Ends(st: Sched, next: ChanId, m: Msg, st': Sched, n: string)
    requires n in st.agents
  {
    && n in st'.agents
    && (forall p :: OutAt(st', n, p) == NewOut(st, next, m, n, p))
    && (forall p, sel :: OutElementAt(st', n, p, sel) == NewOutElement(st, next, m, n, p, sel))
    && st'.agents[n].agent.outArray.Keys == st.agents[n].agent.outArray.Keys
    && st'.agents[n].agent.inport == st.agents[n].agent.inport
    && st'.agents[n].agent.inArray.Keys == st.agents[n].agent.inArray.Keys
  }

  /** The tables of the agent stay, up to the selections. */
  predicate SameEnds(st: Sched, st': Sched, n: string)
    requires n in st.agents
  {
    n in st'.agents &&
      var a, a' := st.agents[n].agent, st'.agents[n].agent;
      a'.outport == a.outport && a'.outArray == a.outArray && a'.inport == a.inport && a'.inArray.Keys == a.inArray.Keys
  }

  lemma SingleElsewhere(st: Sched, next: ChanId, m: Msg, order: seq<string>, n: string)
    requires n in st.agents && (m.Connect? || m.ConnectFromArray? || m.RawConnect? || m.Disconnect? || m.DisconnectFromArray?) && n != m.out
    requires Handle(st, next, m, order).Effect?
    ensures SameEnds(st, Handle(st, next, m, order).st, n)
  {
  }

  lemma IntoElsewhere(st: Sched, next: ChanId, m: Msg, order: seq<string>, n: string)
    requires n in st.agents && (m.ConnectIntoArray? || m.DisconnectIntoArray?) && n != m.out
    requires Handle(st, next, m, order).Effect?
    ensures SameEnds(st, Handle(st, next, m, order).st, n)
  {
  }

  lemma BothElsewhere(st: Sched, next: ChanId, m: Msg, order: seq<string>, n: string)
    requires n in st.agents && (m.ConnectBothArrays? || m.DisconnectBothArrays?) && n != m.out
    requires Handle(st, next, m, order).Effect?
    ensures SameEnds(st, Handle(st, next, m, order).st, n)
  {
  }

  lemma ElsewhereEnds(st: Sched, next: ChanId, m: Msg, order: seq<string>, n: string)
    requires n in st.agents && (Links(m) || m.RawConnect? || m.Disconnect? || m.DisconnectFromArray?) && n != m.out
    requires Handle(st, next, m, order).Effect?
    ensures Ends(st, next, m, Handle(st, next, m, order).st, n)
  {
    if m.ConnectIntoArray? || m.DisconnectIntoArray? {
      IntoElsewhere(st, next, m, order, n);
    } else if m.ConnectBothArrays? || m.DisconnectBothArrays? {
      BothElsewhere(st, next, m, order, n);
    } else {
      SingleElsewhere(st, next, m, order, n);
    }
  }

  lemma PlainEnds(st: Sched, next: ChanId, m: Msg, order: seq<string>, n: string)
    requires n in st.agents && (m.Connect? || m.RawConnect? || m.Disconnect?) && n == m.out
    requires Handle(st, next, m, order).Effect?
    ensures Ends(st, next, m, Handle(st, next, m, order).st, n)
  {
  }

  lemma FromArrayEnds(st: Sched, next: ChanId, m: Msg, order: seq<string>, n: string)
    requires n in st.agents && (m.ConnectFromArray? || m.DisconnectFromArray?) && n == m.out
    requires Handle(st, next, m, order).Effect?
    ensures Ends(st, next, m, Handle(st, next, m, order).st, n)
  {
  }

  lemma IntoArrayEnds(st: Sched, next: ChanId, m: Msg, order: seq<string>, n: string)
    requires n in st.agents && (m.ConnectIntoArray? || m.DisconnectIntoArray?) && n == m.out
    requires Handle(st, next, m, order).Effect?
    ensures Ends(st, next, m, Handle(st, next, m, order).st, n)
  {
  }

  lemma ConnectBothEnds(st: Sched, next: ChanId, m: Msg, order: seq<string>, n: string)
    requires n in st.agents && m.ConnectBothArrays? && n == m.out
    requires Handle(st, next, m, order).Effect?
    ensures Ends(st, next, m, Handle(st, next, m, order).st, n)
  {
  }

  lemma DisconnectBothEnds(st: Sched, next: ChanId, m: Msg, order: seq<string>, n: string)
    requires n in st.agents && m.DisconnectBothArrays? && n == m.out
    requires Handle(st, next, m, order).Effect?
    ensures Ends(st, next, m, Handle(st, next, m, order).st, n)
  {
  }

  lemma OtherSame(st: Sched, next: ChanId, m: Msg, order: seq<string>, n: string)
    requires n in st.agents && Stays(m, n) && !Links(m) && !m.RawConnect? && !m.Disconnect? && !m.DisconnectFromArray?
    requires Handle(st, next, m, order).Effect?
    ensures SameEnds(st, Handle(st, next, m, order).st, n)
  {
    if m.StartAll? {
      StartFold(st, order);
    } else if Config(m) {
      ConfigSame(st, next, m, order, n);
    }
  }

  lemma ConfigSame(st: Sched, next: ChanId, m: Msg, order: seq<string>, n: string)
    requires n in st.agents && Stays(m, n) && Config(m) && !Links(m) && !m.RawConnect? && !m.Disconnect? && !m.DisconnectFromArray?
    requires Handle(st, next, m, order).Effect?
    ensures SameEnds(st, Handle(st, next, m, order).st, n)
  {
  }

  lemma OtherEnds(st: Sched, next: ChanId, m: Msg, order: seq<string>, n: string)
    requires n in st.agents && Stays(m, n) && !Links(m) && !m.RawConnect? && !m.Disconnect? && !m.DisconnectFromArray?
    requires Handle(st, next, m, order).Effect?
    ensures Ends(st, next, m, Handle(st, next, m, order).st, n)
  {
    OtherSame(st, next, m, order, n);
  }

  /** What any message leaves at every sending end of every agent: exactly the end it names is connected to the receiving
      end it names, or disconnected, and the input ports stay; an agent that is updated is the one it was updated to. */
  lemma EndsIff(st: Sched, next: ChanId, m: Msg, order: seq<string>, n: string)
    requires n in st.agents
    requires Handle(st, next, m, order).Effect?
    ensures Stays(m, n) ==> Ends(st, next, m, Handle(st, next, m, order).st, n)
    ensures m.UpdateAgent? && m.agt == n ==>
      var agents := Handle(st, next, m, order).st.agents; n in agents && agents[n].agent == m.state
  {
    if !Stays(m, n) {
      return;
    }
    if !(Links(m) || m.RawConnect? || m.Disconnect? || m.DisconnectFromArray?) {
      OtherEnds(st, next, m, order, n);
    } else if n != m.out {
      ElsewhereEnds(st, next, m, order, n);
    } else if m.Connect? || m.RawConnect? || m.Disconnect? {
      PlainEnds(st, next, m, order, n);
    } else if m.ConnectFromArray? || m.DisconnectFromArray? {
      FromArrayEnds(st, next, m, order, n);
    } else if m.ConnectIntoArray? || m.DisconnectIntoArray? {
      IntoArrayEnds(st, next, m, order, n);
    } else if m.ConnectBothArrays? {
      ConnectBothEnds(st, next, m, order, n);
    } else {
      DisconnectBothEnds(st, next, m, order, n);
    }
  }

  // ------------------------------------------------------------------ packets of msg-mesg, and what starts

  /** Only msg-mesg makes the loop put a packet: the one it carries, into the port it names. */
  lemma MesgIff(st: Sched, next: ChanId, m: Msg, order: seq<string>)
    requires Handle(st, next, m, order).Effect?
    ensures var e := Handle(st, next, m, order);
      && (e.send.Some? <==> m.Mesg?)
      && (m.Mesg? ==> m.agt in st.agents && m.port in st.agents[m.agt].agent.inport
                      && e.send == Some((st.agents[m.agt].agent.inport[m.port], m.payload)) && e.st == st)
  {
  }

  /** Which agents a message starts. */
  predicate Starts(st: Sched, m: Msg, order: seq<string>, n: string)
    requires n in st.agents
  {
    var a := st.agents[n];
    match m
    case IncIp(agt) => n == agt && !a.isRunning && a.ips + 1 > 0
    case RunEnd(agt) => n == agt && a.ips > 0
    case StartAgent(agt) => n == agt && !a.isRunning
    case StartAll => n in order && !a.isRunning && NoInput(a.agent)
    case _ => false
  }

  /** Exactly these are started: an idle agent with something to read, or one that is asked to. */
  lemma StartsIff(st: Sched, next: ChanId, m: Msg, order: seq<string>, n: string)
    requires Handle(st, next, m, order).Effect?
    ensures n in Handle(st, next, m, order).spawned <==> n in st.agents && Starts(st, m, order, n)
  {
    if m.StartAll? {
      StartStarts(st, order);
    }
  }
}
