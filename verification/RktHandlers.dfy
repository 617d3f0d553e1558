// What one message of the Racket scheduler does to the counters: every handler against one description.
module RktHandlers {
  import opened Counting
  import opened Wrappers
  import opened RktAgent
  import opened RktScheduler
  import opened RktSystem

  function RunningSet(agents: map<string, AgentState>): set<string> {
    set n | n in agents && agents[n].isRunning
  }

  ghost predicate Counted(st: Sched) {
    st.running == |RunningSet(st.agents)|
  }

  /** How far number-running is off. */
  ghost function Drift(st: Sched): int {
    st.running - |RunningSet(st.agents)|
  }

  predicate IsRunning(agents: map<string, AgentState>, n: string) {
    n in agents && agents[n].isRunning
  }

  /** An agent that is not running has nothing to read. */
  ghost predicate Awake(agents: map<string, AgentState>) {
    forall n :: n in agents && !agents[n].isRunning ==> agents[n].ips <= 0
  }

  predicate Distinct(names: seq<string>) {
    forall i, j :: 0 <= i < j < |names| ==> names[i] != names[j]
  }

  /** From st to st' exactly the agents in `spawned` were started; nothing else about the counters changed. */
  ghost predicate Started(st: Sched, st': Sched, spawned: seq<string>) {
    && st'.agents.Keys == st.agents.Keys
    && Distinct(spawned)
    && (forall n :: n in spawned ==> n in st.agents && !st.agents[n].isRunning)
    && (forall n :: n in st.agents ==>
          st'.agents[n].isRunning == (st.agents[n].isRunning || n in spawned) && st'.agents[n].ips == st.agents[n].ips)
    && st'.running == st.running + |spawned|
    && st'.willStop == st.willStop
    && Drift(st') == Drift(st)
  }

  lemma CountSet(agents: map<string, AgentState>, n: string, a: AgentState)
    ensures |RunningSet(agents[n := a])| == |RunningSet(agents)| + B(a.isRunning) - B(IsRunning(agents, n))
  {
    var r, r' := RunningSet(agents), RunningSet(agents[n := a]);
    if a.isRunning {
      assert r' == r + {n};
    } else {
      assert r' == r - {n};
    }
  }

  lemma ExecStarts(st: Sched, n: string, force: bool)
    requires n in st.agents
    ensures var (st', spawned) := Exec(st, n, force);
      && Started(st, st', spawned)
      && (spawned == [n] <==> !st.agents[n].isRunning && (force || st.agents[n].ips > 0))
      && (spawned == [] || spawned == [n])
  {
    CountSet(st.agents, n, st.agents[n].(isRunning := true));
  }

  lemma Chained(st: Sched, st1: Sched, st2: Sched, a: seq<string>, b: seq<string>)
    requires Started(st, st1, a) && Started(st1, st2, b)
    ensures Started(st, st2, a + b)
  {
    forall i, j | 0 <= i < j < |a + b| ensures (a + b)[i] != (a + b)[j] {
      if i < |a| <= j {
        assert b[j - |a|] in b && a[i] in a;
      }
    }
  }

  lemma {:induction false} StartFold(st: Sched, order: seq<string>)
    ensures var (st', spawned) := StartEach(st, order);
      && Started(st, st', spawned)
      && (forall n :: n in st.agents ==> st'.agents[n].agent == st.agents[n].agent)
    decreases |order|
  {
    if order == [] {
      assert Started(st, st, []);
    } else {
      var init, name := order[..|order| - 1], order[|order| - 1];
      StartFold(st, init);
      var (st1, spawned1) := StartEach(st, init);
      if name in st1.agents && NoInput(st1.agents[name].agent) {
        ExecStarts(st1, name, true);
        var (st2, spawned2) := Exec(st1, name, true);
        Chained(st, st1, st2, spawned1, spawned2);
      }
    }
  }

  /** msg-start starts exactly the idle agents without inputs, whatever the order the table is walked in. */
  lemma {:induction false} StartStarts(st: Sched, order: seq<string>)
    ensures var (st', spawned) := StartEach(st, order);
      && Started(st, st', spawned)
      && (forall n :: n in spawned <==> n in order && n in st.agents && !st.agents[n].isRunning && NoInput(st.agents[n].agent))
    decreases |order|
  {
    StartFold(st, order);
    if order != [] {
      var init, name := order[..|order| - 1], order[|order| - 1];
      StartFold(st, init);
      StartStarts(st, init);
      assert order == init + [name];
    }
  }

  // ------------------------------------------------------------------ one message

  predicate Gone(m: Msg, n: string) {
    m == RemoveAgent(n)
  }

  /** The effect of any message on the counters. */
  ghost predicate Counts(st: Sched, m: Msg, e: Effect)
    requires e.Effect?
  {
    && (forall n :: n in e.st.agents <==> (n in st.agents && !Gone(m, n)) || (m.AddAgent? && m.name == n))
    && Distinct(e.spawned)
    && (forall n :: n in e.spawned ==> n in st.agents && n in e.st.agents && (!st.agents[n].isRunning || m == RunEnd(n)))
    && (forall n :: n in e.st.agents && n in st.agents && !(m.AddAgent? && m.name == n) ==>
          && e.st.agents[n].isRunning == ((st.agents[n].isRunning && m != RunEnd(n)) || n in e.spawned)
          && e.st.agents[n].ips == st.agents[n].ips + B(m == IncIp(n)) - B(m == DecIp(n)))
    && (m.AddAgent? ==> m.name in e.st.agents && e.st.agents[m.name].ips == 0 && !e.st.agents[m.name].isRunning)
    && e.st.willStop == (st.willStop || m.Stop?)
    && (forall c :: c in e.made ==> c.queue == [] && c.swallowed == 0 && c.owner in e.st.agents)
    && (m.IncIp? || m.DecIp? || m.RunEnd? ==> m.agt in st.agents)
  }

  /** Messages that only rewire, stop, add or remove. */
  predicate Config(m: Msg) {
    !m.IncIp? && !m.DecIp? && !m.RunEnd? && !m.StartAll? && !m.StartAgent?
  }

  /** By how much a message puts number-running off: an agent that is running is replaced or removed, or a run-end
      comes for one that is not. */
  function Slip(st: Sched, m: Msg): int {
    if (m.AddAgent? || m.RemoveAgent?) && IsRunning(st.agents, m.name) then 1
    else if m.RunEnd? && !IsRunning(st.agents, m.agt) then -1
    else 0
  }

  /** The sums that depend on the whole table. */
  ghost predicate Sums(st: Sched, m: Msg, e: Effect)
    requires e.Effect?
  {
    Drift(e.st) == Drift(st) + Slip(st, m) && (Awake(st.agents) ==> Awake(e.st.agents))
  }

  predicate TwoEnds(m: Msg) {
    m.ConnectIntoArray? || m.ConnectBothArrays? || m.DisconnectIntoArray? || m.DisconnectBothArrays?
  }

  /** Storing agents back leaves every counter as it was. */
  ghost predicate SameCounters(st: Sched, st': Sched) {
    && st'.agents.Keys == st.agents.Keys && st'.running == st.running && st'.willStop == st.willStop
    && (forall n :: n in st.agents ==>
          st'.agents[n].isRunning == st.agents[n].isRunning && st'.agents[n].ips == st.agents[n].ips)
  }

  lemma OneEndRewires(st: Sched, next: ChanId, m: Msg, order: seq<string>)
    requires Config(m) && !m.AddAgent? && !m.RemoveAgent? && !m.Stop? && !TwoEnds(m)
    requires Handle(st, next, m, order).Effect?
    ensures var e := Handle(st, next, m, order); SameCounters(st, e.st) && e.spawned == [] && e.made == []
  {
  }

  lemma TwoEndsRewire(st: Sched, next: ChanId, m: Msg, order: seq<string>)
    requires TwoEnds(m)
    requires Handle(st, next, m, order).Effect?
    ensures var e := Handle(st, next, m, order);
      SameCounters(st, e.st) && e.spawned == [] && (e.made == [] || e.made == [Chan(m.in_, true, false, [], 0)]) && m.in_ in st.agents
  {
  }

  lemma SameKeeps(st: Sched, m: Msg, e: Effect)
    requires Config(m) && !m.AddAgent? && !m.RemoveAgent? && e.Effect?
    requires SameCounters(st, e.st.(willStop := st.willStop)) && e.st.willStop == (st.willStop || m.Stop?) && e.spawned == []
    requires forall c :: c in e.made ==> c.queue == [] && c.swallowed == 0 && c.owner in st.agents
    ensures Counts(st, m, e) && Sums(st, m, e)
  {
    assert RunningSet(e.st.agents) == RunningSet(st.agents);
  }

  lemma RewireCounts(st: Sched, next: ChanId, m: Msg, order: seq<string>)
    requires Config(m) && !m.AddAgent? && !m.RemoveAgent?
    requires Handle(st, next, m, order).Effect?
    ensures var e := Handle(st, next, m, order); Counts(st, m, e) && Sums(st, m, e)
  {
    if TwoEnds(m) {
      TwoEndsRewire(st, next, m, order);
    } else if !m.Stop? {
      OneEndRewires(st, next, m, order);
    }
    SameKeeps(st, m, Handle(st, next, m, order));
  }

  lemma AddCounts(st: Sched, next: ChanId, m: Msg, order: seq<string>)
    requires m.AddAgent?
    ensures var e := Handle(st, next, m, order); e.Effect? && Counts(st, m, e) && Sums(st, m, e)
  {
    CountSet(st.agents, m.name, Handle(st, next, m, order).st.agents[m.name]);
  }

  lemma RemoveCounts(st: Sched, next: ChanId, m: Msg, order: seq<string>)
    requires m.RemoveAgent?
    ensures var e := Handle(st, next, m, order); e.Effect? && Counts(st, m, e) && Sums(st, m, e)
  {
    assert RunningSet(Handle(st, next, m, order).st.agents) == RunningSet(st.agents) - {m.name};
  }

  lemma IncCounts(st: Sched, next: ChanId, n: string, order: seq<string>)
    requires n in st.agents
    ensures var e := Handle(st, next, IncIp(n), order); e.Effect? && Counts(st, IncIp(n), e) && Sums(st, IncIp(n), e)
  {
    var a := st.agents[n];
    var st1 := st.(agents := st.agents[n := a.(ips := a.ips + 1)]);
    ExecStarts(st1, n, false);
    assert RunningSet(st1.agents) == RunningSet(st.agents);
  }

  lemma DecCounts(st: Sched, next: ChanId, n: string, order: seq<string>)
    requires n in st.agents
    ensures var e := Handle(st, next, DecIp(n), order); e.Effect? && Counts(st, DecIp(n), e) && Sums(st, DecIp(n), e)
  {
    assert RunningSet(Handle(st, next, DecIp(n), order).st.agents) == RunningSet(st.agents);
  }

  lemma EndCounts(st: Sched, next: ChanId, n: string, order: seq<string>)
    requires n in st.agents
    ensures var e := Handle(st, next, RunEnd(n), order); e.Effect? && Counts(st, RunEnd(n), e) && Sums(st, RunEnd(n), e)
  {
    var a := st.agents[n].(isRunning := false);
    var st1 := st.(agents := st.agents[n := a], running := st.running - 1);
    CountSet(st.agents, n, a);
    ExecStarts(st1, n, false);
  }

  lemma StartCounts(st: Sched, next: ChanId, order: seq<string>)
    ensures var e := Handle(st, next, StartAll, order); Counts(st, StartAll, e) && Sums(st, StartAll, e)
  {
    StartStarts(st, order);
  }

  /** What every message that does not raise does, in every state: number-running goes wrong exactly when a running
      agent is replaced or removed, or a run-end comes for an idle one. */
  lemma HandleCounts(st: Sched, next: ChanId, m: Msg, order: seq<string>)
    requires Handle(st, next, m, order).Effect?
    ensures var e := Handle(st, next, m, order); Counts(st, m, e) && Sums(st, m, e)
  {
    if m.StartAll? {
      StartCounts(st, next, order);
    } else if m.AddAgent? {
      AddCounts(st, next, m, order);
    } else if m.RemoveAgent? {
      RemoveCounts(st, next, m, order);
    } else if Config(m) {
      RewireCounts(st, next, m, order);
    } else if m.IncIp? {
      IncCounts(st, next, m.agt, order);
    } else if m.DecIp? {
      DecCounts(st, next, m.agt, order);
    } else if m.RunEnd? {
      EndCounts(st, next, m.agt, order);
    } else {
      ExecStarts(st, m.agt, true);
    }
  }

  // ------------------------------------------------------------------ messages that raise

  /** What a message may name: an agent, a port of one, or a selection of an array port. */
  datatype Need =
    | AgentOf(name: string)
    | InPort(name: string, port: string)
    | InArray(name: string, port: string)
    | InSelection(name: string, port: string, sel: string)
    | OutArray(name: string, port: string)

  predicate Has(st: Sched, x: Need) {
    x.name in st.agents &&
      var agt := st.agents[x.name].agent;
      match x
      case AgentOf(_) => true
      case InPort(_, port) => port in agt.inport
      case InArray(_, port) => port in agt.inArray
      case InSelection(_, port, sel) => port in agt.inArray && sel in agt.inArray[port]
      case OutArray(_, port) => port in agt.outArray
  }

  /** Messages about a sending and a receiving agent. */
  predicate Links(m: Msg) {
    TwoEnds(m) || m.Connect? || m.ConnectFromArray?
  }

  function Sender(m: Msg): Need
    requires Links(m)
  {
    if m.ConnectFromArray? || m.ConnectBothArrays? || m.DisconnectBothArrays? then OutArray(m.out, m.portOut) else AgentOf(m.out)
  }

  function Receiver(m: Msg): Need
    requires Links(m)
  {
    if m.Connect? || m.ConnectFromArray? then InPort(m.in_, m.portIn)
    else if m.ConnectIntoArray? || m.ConnectBothArrays? then InArray(m.in_, m.portIn)
    else InSelection(m.in_, m.portIn, m.selIn)
  }

  /** What a message names that has to be there. Connecting creates a plain output port or a selection on demand. */
  function Needs(m: Msg): set<Need> {
    if Links(m) then {Sender(m), Receiver(m)}
    else
      match m
      case Disconnect(out, _) => {AgentOf(out)}
      case DisconnectFromArray(out, po, _) => {OutArray(out, po)}
      case RawConnect(out, _, _) => {AgentOf(out)}
      case UpdateAgent(name, _) => {AgentOf(name)}
      case Mesg(name, port, _) => {InPort(name, port)}
      case IncIp(name) => {AgentOf(name)}
      case DecIp(name) => {AgentOf(name)}
      case RunEnd(name) => {AgentOf(name)}
      case StartAgent(name) => {AgentOf(name)}
      case _ => {}
  }

  lemma LinkRaisesIff(st: Sched, next: ChanId, m: Msg, order: seq<string>)
    requires Links(m)
    ensures Handle(st, next, m, order).Crash? <==> !Has(st, Sender(m)) || !Has(st, Receiver(m))
  {
  }

  /** A message raises exactly when something that it names is not there. */
  lemma RaisesIff(st: Sched, next: ChanId, m: Msg, order: seq<string>)
    ensures Handle(st, next, m, order).Crash? <==> exists x :: x in Needs(m) && !Has(st, x)
  {
    if Links(m) {
      LinkRaisesIff(st, next, m, order);
    } else if m.DisconnectFromArray? {
      assert Has(st, OutArray(m.out, m.portOut)) || OutArray(m.out, m.portOut) in Needs(m);
    } else if m.Mesg? {
      assert Has(st, InPort(m.agt, m.port)) || InPort(m.agt, m.port) in Needs(m);
    } else if m.Disconnect? || m.RawConnect? {
      assert Has(st, AgentOf(m.out)) || AgentOf(m.out) in Needs(m);
    } else if Needs(m) != {} {
      assert Has(st, AgentOf(m.agt)) || AgentOf(m.agt) in Needs(m);
    }
  }
}
