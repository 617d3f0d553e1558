// The exterior scheduler: the table of agents the user of the API sees, and the messages its methods
// post to the interior scheduler (modules/rs/rustfbp/src/scheduler.rs). Value-level meaning; the class
// in SchedulerApi.dfy is proved against it.
module Exterior {
  import opened Wrappers
  import opened Interior

  datatype Comp = Comp(
    id: Id,
    inputs: map<string, ChanId>,
    inputsArray: map<string, map<string, ChanId>>,
    sort: Sort,
    start: bool)

  datatype Ext = Ext(agents: map<string, Comp>, nextId: Id)

  /** How a call fails. All but the last are returned; Panics is an `expect` on an undeclared port, which kills the
      calling thread before anything was changed or posted. */
  datatype Error = AgentNotFound | BadSchema | PortNotFound | ElementNotFound | Panics

  // ------------------------------------------------------------------ schemas

  function SchemaInput(s: Sort, port: string): Option<string> {
    if Declares(s.inputs, port) then Lookup(s.inputs, port)
    else if port == "option" then s.option
    else if port == "accumulator" then s.accumulator
    else None
  }

  predicate Compatible(a: string, b: string) {
    a == "BAny" || b == "BAny" || a == b
  }

  // ------------------------------------------------------------------ add_node

  function IndexOf(ds: seq<Decl>, name: string): (i: nat)
    requires Declares(ds, name)
    ensures i < |ds| && ds[i].name == name && Lookup(ds, name) == Some(ds[i].schema)
  {
    if ds[0].name == name then 0 else 1 + IndexOf(ds[1..], name)
  }

  /** The senders of the simple input ports: two unscheduled channels come first, then one per input. */
  function InputSenders(s: Sort, base: ChanId): (m: map<string, ChanId>)
    ensures forall p :: p in m <==> p == "option" || p == "accumulator" || Declares(s.inputs, p)
    ensures forall p :: p in m ==> base <= m[p] < base + 2 + |s.inputs|
  {
    var names := set i | 0 <= i < |s.inputs| :: s.inputs[i].name;
    map["option" := base, "accumulator" := base + 1]
    + map p | p in names && Declares(s.inputs, p) :: base + 2 + IndexOf(s.inputs, p)
  }

  function HasInputs(s: Sort): bool {
    s.inputs != [] || s.inarr != []
  }

  function AddNode(x: Ext, name: string, s: Sort, base: ChanId): (Ext, CompMsg) {
    (Ext(x.agents[name := Comp(x.nextId, InputSenders(s, base), map[], s, !HasInputs(s))], x.nextId + 1),
     NewAgent(x.nextId, name, NewBox(s)))
  }

  // ------------------------------------------------------------------ senders

  function GetSender(x: Ext, comp: string, port: string): Result<ChanId, Error> {
    if comp !in x.agents then Err(AgentNotFound)
    else
      var c := x.agents[comp];
      if port !in c.inputs then Err(PortNotFound)
      else if SchemaInput(c.sort, port).None? then Err(Panics)
      else Ok(c.inputs[port])
  }

  function GetArraySender(x: Ext, comp: string, port: string, element: string): Result<ChanId, Error> {
    if comp !in x.agents then Err(AgentNotFound)
    else
      var c := x.agents[comp];
      if port !in c.inputsArray then Err(PortNotFound)
      else if element !in c.inputsArray[port] then Err(ElementNotFound)
      else if !Declares(c.sort.inarr, port) then Err(Panics)
      else Ok(c.inputsArray[port][element])
  }

  // ------------------------------------------------------------------ the four connect methods

  /** The checks shared by the connect methods, given the two schema lookups. */
  function CheckSchemas(inSchema: Option<string>, outSchema: Option<string>): Option<Error> {
    if inSchema.None? || outSchema.None? then Some(Panics)
    else if inSchema.value != "BAny" && outSchema.value != "BAny" && inSchema.value != outSchema.value
    then Some(BadSchema)
    else None
  }

  function Connect(x: Ext, compOut: string, portOut: string, compIn: string, portIn: string): Result<CompMsg, Error> {
    if compIn !in x.agents || compOut !in x.agents then Err(AgentNotFound)
    else
      match CheckSchemas(SchemaInput(x.agents[compIn].sort, portIn), Lookup(x.agents[compOut].sort.outputs, portOut))
      case Some(e) => Err(e)
      case None =>
        match GetSender(x, compIn, portIn)
        case Err(e) => Err(e)
        case Ok(sender) => Ok(EditAgent(x.agents[compOut].id, ConnectOutputPort(portOut, sender)))
  }

  function ConnectArray(x: Ext, compOut: string, portOut: string, elementOut: string,
                        compIn: string, portIn: string): Result<CompMsg, Error> {
    if compIn !in x.agents || compOut !in x.agents then Err(AgentNotFound)
    else
      match CheckSchemas(SchemaInput(x.agents[compIn].sort, portIn), Lookup(x.agents[compOut].sort.outarr, portOut))
      case Some(e) => Err(e)
      case None =>
        match GetSender(x, compIn, portIn)
        case Err(e) => Err(e)
        case Ok(sender) => Ok(EditAgent(x.agents[compOut].id, ConnectOutputArrayPort(portOut, elementOut, sender)))
  }

  function ConnectToArray(x: Ext, compOut: string, portOut: string,
                          compIn: string, portIn: string, elementIn: string): Result<CompMsg, Error> {
    if compIn !in x.agents || compOut !in x.agents then Err(AgentNotFound)
    else
      match CheckSchemas(Lookup(x.agents[compIn].sort.inarr, portIn), Lookup(x.agents[compOut].sort.outputs, portOut))
      case Some(e) => Err(e)
      case None =>
        match GetArraySender(x, compIn, portIn, elementIn)
        case Err(e) => Err(e)
        case Ok(sender) => Ok(EditAgent(x.agents[compOut].id, ConnectOutputPort(portOut, sender)))
  }

  function ConnectArrayToArray(x: Ext, compOut: string, portOut: string, elementOut: string,
                               compIn: string, portIn: string, elementIn: string): Result<CompMsg, Error> {
    if compIn !in x.agents || compOut !in x.agents then Err(AgentNotFound)
    else
      match CheckSchemas(Lookup(x.agents[compIn].sort.inarr, portIn), Lookup(x.agents[compOut].sort.outarr, portOut))
      case Some(e) => Err(e)
      case None =>
        match GetArraySender(x, compIn, portIn, elementIn)
        case Err(e) => Err(e)
        case Ok(sender) => Ok(EditAgent(x.agents[compOut].id, ConnectOutputArrayPort(portOut, elementOut, sender)))
  }

  // ------------------------------------------------------------------ array input elements

  predicate HasElement(x: Ext, comp: string, port: string, element: string) {
    comp in x.agents && port in x.agents[comp].inputsArray && element in x.agents[comp].inputsArray[port]
  }

  function WithElement(c: Comp, port: string, element: string, chan: ChanId): Comp {
    var elements := if port in c.inputsArray then c.inputsArray[port] else map[];
    c.(inputsArray := c.inputsArray[port := elements[element := chan]])
  }

  /** Record the sender of a freshly made channel and post its receiver to the agent. */
  function AddInputElement(x: Ext, comp: string, port: string, element: string, chan: ChanId):
      Result<(Ext, CompMsg), Error> {
    if comp !in x.agents then Err(AgentNotFound)
    else
      var c := x.agents[comp];
      if !Declares(c.sort.inarr, port) then Err(Panics)
      else Ok((x.(agents := x.agents[comp := WithElement(c, port, element, chan)]),
               EditAgent(c.id, AddInputArrayElement(port, element, chan))))
  }
}
