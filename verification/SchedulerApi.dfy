// The exterior Scheduler (modules/rs/rustfbp/src/scheduler.rs) as a class over its table of agents, each
// method proved against the function of the same name in Exterior.dfy.
module SchedulerApi {
  import opened Wrappers
  import opened Interior
  import opened System
  import Wiring
  import X = Exterior

  predicate NoInputs(s: Sort) {
    s.inputs == [] && s.inarr == []
  }

  class Scheduler {
    var agents: map<string, X.Comp>
    var id: Id
    var sent: seq<CompMsg>         // posted to the interior scheduler, oldest first
    var channels: seq<Channel>     // every channel made so far, by number

    function View(): X.Ext
      reads this
    {
      X.Ext(agents, id)
    }

    /** The agents that start by themselves are those whose sort declares no input of either kind. */
    ghost predicate Valid()
      reads this
    {
      forall n :: n in agents ==> (agents[n].start <==> NoInputs(agents[n].sort))
    }

    /** What a connect method does with the outcome of its checks: post the edit, or change nothing and report the error
        or panic. */
    twostate predicate Posted(outcome: Result<CompMsg, X.Error>, new r: Option<X.Error>)
      reads this
    {
      && View() == old(View()) && channels == old(channels)
      && (outcome.Ok? ==> r == None && sent == old(sent) + [outcome.value])
      && (outcome.Err? ==> r == Some(outcome.error) && sent == old(sent))
    }

    constructor ()
      ensures Valid() && View() == Init.ext && sent == [] && channels == []
    {
      agents, id, sent, channels := map[], 0, [], [];
    }

    /** The agent gets the next id, and channels as its sort declares them. */
    method AddNode(name: string, sort: Sort)
      requires Valid()
      modifies this
      ensures Valid() && id == old(id) + 1 && sent == old(sent) + [NewAgent(old(id), name, NewBox(sort))]
      ensures name in agents && agents == old(agents)[name := agents[name]]
      ensures agents[name].id == old(id) && agents[name].sort == sort && agents[name].inputsArray == map[]
      ensures Wiring.PortsMade(channels, agents[name]) && old(channels) <= channels
      ensures var (x, m) := X.AddNode(old(View()), name, sort, |old(channels)|); View() == x && sent == old(sent) + [m]
      ensures channels == old(channels) + NodeChannels(old(id), sort)
    {
      var senders := X.InputSenders(sort, |channels|);
      channels := channels + NodeChannels(id, sort);
      sent := sent + [NewAgent(id, name, NewBox(sort))];
      agents := agents[name := X.Comp(id, senders, map[], sort, !X.HasInputs(sort))];
      id := id + 1;
      Wiring.NewPortsMade(old(View()), old(channels), name, sort);
    }

    /** `order` lists the agents whose sort declares neither a simple nor an array input, each once. */
    ghost predicate ListsStarters(order: seq<string>)
      reads this
    {
      && (forall k :: 0 <= k < |order| ==> order[k] in agents && NoInputs(agents[order[k]].sort))
      && (forall k, l :: 0 <= k < l < |order| ==> order[k] != order[l])
      && (forall n :: n in agents && NoInputs(agents[n].sort) ==> n in order)
    }

    ghost function StartsOf(order: seq<string>): seq<CompMsg>
      reads this
      requires forall k :: 0 <= k < |order| ==> order[k] in agents
    {
      seq(|order|, k requires 0 <= k < |order| && order[k] in agents reads this => Start(agents[order[k]].id))
    }

    /** Start every agent without input ports, each once, in whatever order the table gives them. */
    method StartAll()
      requires Valid()
      modifies this`sent
      ensures exists order :: ListsStarters(order) && sent == old(sent) + StartsOf(order)
    {
      var todo := agents.Keys;
      ghost var order: seq<string> := [];
      while todo != {}
        invariant todo <= agents.Keys
        invariant forall k :: 0 <= k < |order| ==> order[k] in agents && agents[order[k]].start && order[k] !in todo
        invariant forall k, l :: 0 <= k < l < |order| ==> order[k] != order[l]
        invariant forall n :: n in agents && agents[n].start ==> n in order || n in todo
        invariant sent == old(sent) + StartsOf(order)
        decreases todo
      {
        var n :| n in todo;
        todo := todo - {n};
        if agents[n].start {
          assert StartsOf(order + [n]) == StartsOf(order) + [Start(agents[n].id)];
          sent := sent + [Start(agents[n].id)];
          order := order + [n];
        }
      }
      assert ListsStarters(order);
    }

    method StartAgent(name: string) returns (r: Option<X.Error>)
      modifies this`sent
      ensures name in agents ==> r == None && sent == old(sent) + [Start(agents[name].id)]
      ensures name !in agents ==> r == Some(X.AgentNotFound) && sent == old(sent)
    {
      if name !in agents {
        return Some(X.AgentNotFound);
      }
      sent := sent + [Start(agents[name].id)];
      r := None;
    }

    method Connect(compOut: string, portOut: string, compIn: string, portIn: string) returns (r: Option<X.Error>)
      modifies this`sent
      ensures Posted(X.Connect(old(View()), compOut, portOut, compIn, portIn), r)
    {
      if compIn !in agents { return Some(X.AgentNotFound); }
      if compOut !in agents { return Some(X.AgentNotFound); }
      var bad := X.CheckSchemas(X.SchemaInput(agents[compIn].sort, portIn), Lookup(agents[compOut].sort.outputs, portOut));
      if bad.Some? { return bad; }
      var sender := X.GetSender(View(), compIn, portIn);
      if sender.Err? { return Some(sender.error); }
      sent := sent + [EditAgent(agents[compOut].id, ConnectOutputPort(portOut, sender.value))];
      r := None;
    }

    method ConnectArray(compOut: string, portOut: string, elementOut: string, compIn: string, portIn: string)
      returns (r: Option<X.Error>)
      modifies this`sent
      ensures Posted(X.ConnectArray(old(View()), compOut, portOut, elementOut, compIn, portIn), r)
    {
      if compIn !in agents { return Some(X.AgentNotFound); }
      if compOut !in agents { return Some(X.AgentNotFound); }
      var bad := X.CheckSchemas(X.SchemaInput(agents[compIn].sort, portIn), Lookup(agents[compOut].sort.outarr, portOut));
      if bad.Some? { return bad; }
      var sender := X.GetSender(View(), compIn, portIn);
      if sender.Err? { return Some(sender.error); }
      sent := sent + [EditAgent(agents[compOut].id, ConnectOutputArrayPort(portOut, elementOut, sender.value))];
      r := None;
    }

    method ConnectToArray(compOut: string, portOut: string, compIn: string, portIn: string, elementIn: string)
      returns (r: Option<X.Error>)
      modifies this`sent
      ensures Posted(X.ConnectToArray(old(View()), compOut, portOut, compIn, portIn, elementIn), r)
    {
      if compIn !in agents { return Some(X.AgentNotFound); }
      if compOut !in agents { return Some(X.AgentNotFound); }
      var bad := X.CheckSchemas(Lookup(agents[compIn].sort.inarr, portIn), Lookup(agents[compOut].sort.outputs, portOut));
      if bad.Some? { return bad; }
      var sender := X.GetArraySender(View(), compIn, portIn, elementIn);
      if sender.Err? { return Some(sender.error); }
      sent := sent + [EditAgent(agents[compOut].id, ConnectOutputPort(portOut, sender.value))];
      r := None;
    }

    method ConnectArrayToArray(compOut: string, portOut: string, elementOut: string,
                               compIn: string, portIn: string, elementIn: string) returns (r: Option<X.Error>)
      modifies this`sent
      ensures Posted(X.ConnectArrayToArray(old(View()), compOut, portOut, elementOut, compIn, portIn, elementIn), r)
    {
      if compIn !in agents { return Some(X.AgentNotFound); }
      if compOut !in agents { return Some(X.AgentNotFound); }
      var bad := X.CheckSchemas(Lookup(agents[compIn].sort.inarr, portIn), Lookup(agents[compOut].sort.outarr, portOut));
      if bad.Some? { return bad; }
      var sender := X.GetArraySender(View(), compIn, portIn, elementIn);
      if sender.Err? { return Some(sender.error); }
      sent := sent + [EditAgent(agents[compOut].id, ConnectOutputArrayPort(portOut, elementOut, sender.value))];
      r := None;
    }

    /** Make a channel for the element, keep its sender and post its receiver. */
    method AddInputArrayElement(comp: string, port: string, element: string) returns (r: Option<X.Error>)
      modifies this
      ensures old(Valid()) ==> Valid()
      ensures match X.AddInputElement(old(View()), comp, port, element, |old(channels)|)
        case Err(e) => r == Some(e) && View() == old(View()) && sent == old(sent) && channels == old(channels)
        case Ok((x, m)) =>
          (r == None && View() == x && sent == old(sent) + [m]
           && channels == old(channels) + [Open(old(agents)[comp].id, true, Lookup(old(agents)[comp].sort.inarr, port))])
    {
      if comp !in agents { return Some(X.AgentNotFound); }
      var c := agents[comp];
      if !Declares(c.sort.inarr, port) { return Some(X.Panics); }
      var chan := |channels|;
      channels := channels + [Open(c.id, true, Lookup(c.sort.inarr, port))];
      var inputsArray := c.inputsArray;
      if port !in inputsArray {
        inputsArray := inputsArray[port := map[]];
      }
      inputsArray := inputsArray[port := inputsArray[port][element := chan]];
      agents := agents[comp := c.(inputsArray := inputsArray)];
      assert agents[comp] == X.WithElement(c, port, element, chan);
      sent := sent + [EditAgent(c.id, Interior.AddInputArrayElement(port, element, chan))];
      r := None;
    }

    /** The same, unless the element is already there. */
    method SoftAddInputArrayElement(comp: string, port: string, element: string) returns (r: Option<X.Error>)
      modifies this
      ensures old(Valid()) ==> Valid()
      ensures X.HasElement(old(View()), comp, port, element) ==>
        r == None && View() == old(View()) && sent == old(sent) && channels == old(channels)
      ensures !X.HasElement(old(View()), comp, port, element) ==>
        match X.AddInputElement(old(View()), comp, port, element, |old(channels)|)
        case Err(e) => r == Some(e) && View() == old(View()) && sent == old(sent) && channels == old(channels)
        case Ok((x, m)) =>
          (r == None && View() == x && sent == old(sent) + [m]
           && channels == old(channels) + [Open(old(agents)[comp].id, true, Lookup(old(agents)[comp].sort.inarr, port))])
    {
      var missing := true;
      if comp in agents {
        if port in agents[comp].inputsArray {
          if element in agents[comp].inputsArray[port] {
            missing := false;
          }
        }
      }
      if missing {
        r := AddInputArrayElement(comp, port, element);
      } else {
        r := None;
      }
    }

    method Join()
      modifies this`sent
      ensures sent == old(sent) + [HaltState]
    {
      sent := sent + [HaltState];
    }
  }
}
