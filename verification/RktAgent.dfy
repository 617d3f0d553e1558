// The agents of the Racket runtime: immutable tables of ports, with array selections that count how many
// connections share them (modules/rkt/rkt-fbp/agent.rkt). A hash-ref of a missing key raises: None.
module RktAgent {
  import opened Wrappers

  type ChanId = nat

  /** make-port 30 */
  const CAPACITY: nat := 30

  /** A port is its channel; `synced` ports announce every packet to the scheduler under the owner's name.
      The runtime tells an empty channel from a packet by truth value, so the packet #f is special.
      `swallowed` is history: the packets #f that a try-recv removed from a synced port unannounced. */
  datatype Payload = False | Datum(value: int)
  datatype Chan = Chan(owner: string, synced: bool, option: bool, queue: seq<Payload>, swallowed: nat)

  datatype OptAgent = OptAgent(inputs: seq<string>, inArray: seq<string>, outputs: seq<string>, outArray: seq<string>)

  datatype Selection = Selection(count: int, chan: ChanId)

  datatype Agent = Agent(
    inport: map<string, ChanId>,
    inArray: map<string, map<string, Selection>>,
    outport: map<string, Option<ChanId>>,
    outArray: map<string, map<string, ChanId>>)

  // ------------------------------------------------------------------ building

  function MakePort(input: string, name: string): Chan {
    Chan(name, input != "acc" && input != "option", input == "option", [], 0)
  }

  /** Input k of the list is channel next + k; a repeated name keeps its last channel. */
  function BuildIn(inputs: seq<string>, next: ChanId): map<string, ChanId> {
    if inputs == [] then map[]
    else BuildIn(inputs[..|inputs| - 1], next)[inputs[|inputs| - 1] := next + |inputs| - 1]
  }

  function Inputs(opt: OptAgent): seq<string> {
    ["acc", "option"] + opt.inputs
  }

  function InChannels(opt: OptAgent, name: string): seq<Chan> {
    var inputs := Inputs(opt);
    seq(|inputs|, i requires 0 <= i < |inputs| => MakePort(inputs[i], name))
  }

  /** The accumulator output is looped back to the accumulator input. */
  function MakeAgent(opt: OptAgent, next: ChanId): Agent {
    var inport := BuildIn(Inputs(opt), next);
    Agent(
      inport,
      map p | p in opt.inArray :: map[],
      (map p | p in ["acc"] + opt.outputs :: None)["acc" := if "acc" in inport then Some(inport["acc"]) else None],
      map p | p in opt.outArray :: map[])
  }

  predicate NoInput(agt: Agent) {
    |agt.inport| == 2 && agt.inArray == map[]
  }

  // ------------------------------------------------------------------ connecting

  function ConnectOut(agt: Agent, port: string, sender: ChanId): Agent {
    agt.(outport := agt.outport[port := Some(sender)])
  }

  /** The sender of the selection, which is created over channel `spare` when it does not exist yet. */
  datatype Shared = Shared(sender: ChanId, agt: Agent, made: bool)

  function ConnectToArray(agt: Agent, port: string, sel: string, spare: ChanId): Option<Shared> {
    if port !in agt.inArray then None
    else
      var table := agt.inArray[port];
      if sel in table then
        var s := table[sel];
        var table' := table[sel := Selection(s.count + 1, s.chan)];
        Some(Shared(s.chan, agt.(inArray := agt.inArray[port := table']), false))
      else
        var table' := table[sel := Selection(1, spare)];
        Some(Shared(spare, agt.(inArray := agt.inArray[port := table']), true))
  }

  function ConnectArrayTo(agt: Agent, port: string, sel: string, sender: ChanId): Option<Agent> {
    if port !in agt.outArray then None
    else
      var table: map<string, ChanId> := agt.outArray[port][sel := sender];
      Some(agt.(outArray := agt.outArray[port := table]))
  }

  // ------------------------------------------------------------------ disconnecting

  function DisconnectOut(agt: Agent, port: string): Agent {
    agt.(outport := agt.outport[port := None])
  }

  function DisconnectToArray(agt: Agent, port: string, sel: string): Option<Agent> {
    if port !in agt.inArray || sel !in agt.inArray[port] then None
    else
      var table := agt.inArray[port];
      var s := table[sel];
      var table' := if s.count == 1 then table - {sel} else table[sel := Selection(s.count - 1, s.chan)];
      Some(agt.(inArray := agt.inArray[port := table']))
  }

  function DisconnectArrayTo(agt: Agent, port: string, sel: string): Option<Agent> {
    if port !in agt.outArray then None
    else
      var table: map<string, ChanId> := agt.outArray[port] - {sel};
      Some(agt.(outArray := agt.outArray[port := table]))
  }
}
