// Typed wiring: over every run, each posted, deferred and installed connection joins an output port the
// agent declares to a channel of the same schema (or one side is "BAny"), so no edit is ever refused.
module Wiring {
  import opened Wrappers
  import opened Interior
  import opened System
  import opened Ordering
  import Exterior

  predicate Carries(cs: seq<Channel>, c: ChanId, schema: Option<string>) {
    c < |cs| && schema.Some? && Exterior.Compatible(schema.value, cs[c].schema)
  }

  predicate EditTyped(sort: Sort, id: Id, cs: seq<Channel>, e: Edit) {
    match e
    case ConnectOutputPort(p, c) => Carries(cs, c, Lookup(sort.outputs, p))
    case ConnectOutputArrayPort(p, _, c) => Carries(cs, c, Lookup(sort.outarr, p))
    case AddInputArrayElement(p, _, c) =>
      c < |cs| && cs[c].owner == id && cs[c].scheduled && Lookup(sort.inarr, p) == Some(cs[c].schema)
  }

  ghost predicate BoxTyped(sort: Sort, id: Id, cs: seq<Channel>, b: Box) {
    && b.sort == sort
    && (forall p :: p in b.output ==> EditTyped(sort, id, cs, ConnectOutputPort(p, b.output[p])))
    && (forall k :: k in b.outarr ==> EditTyped(sort, id, cs, ConnectOutputArrayPort(k.0, k.1, b.outarr[k])))
    && (forall k :: k in b.inarr ==> EditTyped(sort, id, cs, AddInputArrayElement(k.0, k.1, b.inarr[k])))
  }

  ghost predicate EditsTyped(sort: Sort, id: Id, cs: seq<Channel>, es: seq<Edit>) {
    forall k :: 0 <= k < |es| ==> EditTyped(sort, id, cs, es[k])
  }

  ghost predicate AgentTyped(sort: Sort, id: Id, cs: seq<Channel>, c: CompState) {
    && (c.comp.Some? ==> BoxTyped(sort, id, cs, c.comp.value))
    && EditsTyped(sort, id, cs, c.editMsgs)
  }

  ghost predicate MsgTyped(sorts: map<Id, Sort>, cs: seq<Channel>, m: CompMsg) {
    && (HasId(m) ==> m.id in sorts)
    && (m.NewAgent? || m.RunEnd? ==> BoxTyped(sorts[m.id], m.id, cs, m.box))
    && (m.EditAgent? ==> EditTyped(sorts[m.id], m.id, cs, m.edit))
  }

  /** A registered agent starts by itself if it declares no input of either kind. It has a channel of its own for the
      option, the accumulator and each declared input, and exactly the declared inputs are scheduled. */
  ghost predicate PortsMade(cs: seq<Channel>, c: Exterior.Comp) {
    && (c.start <==> c.sort.inputs == [] && c.sort.inarr == [])
    && (forall p :: p in c.inputs <==> p == "option" || p == "accumulator" || Declares(c.sort.inputs, p))
    && (forall p :: p in c.inputs ==> c.inputs[p] < |cs| && (cs[c.inputs[p]].scheduled <==> Declares(c.sort.inputs, p)))
    && (forall p, q :: p in c.inputs && q in c.inputs && c.inputs[p] == c.inputs[q] ==> p == q)
  }

  /** The exterior table describes channels of the right agent and schema. */
  ghost predicate CompTyped(sorts: map<Id, Sort>, cs: seq<Channel>, c: Exterior.Comp) {
    && c.id in sorts && c.sort == sorts[c.id] && PortsMade(cs, c)
    && (forall p :: p in c.inputs ==> c.inputs[p] < |cs| && cs[c.inputs[p]].owner == c.id)
    && (forall p :: p in c.inputs && Exterior.SchemaInput(c.sort, p).Some? ==>
          cs[c.inputs[p]].schema == Exterior.SchemaInput(c.sort, p).value)
    && (forall p, e :: p in c.inputsArray && e in c.inputsArray[p] ==>
          EditTyped(c.sort, c.id, cs, AddInputArrayElement(p, e, c.inputsArray[p][e])))
  }

  ghost predicate Wired(s: Sys) {
    && (forall i :: i in s.sorts <==> 0 <= i < s.ext.nextId)
    && StatesTyped(s.sorts, s.channels, s.sched.agents)
    && (forall j :: j in s.jobs ==> s.jobs[j].id in s.sorts && BoxTyped(s.sorts[s.jobs[j].id], s.jobs[j].id, s.channels, s.jobs[j].box))
    && (forall p :: 0 <= p < |s.mailbox| ==> MsgTyped(s.sorts, s.channels, s.mailbox[p]))
    && (forall n :: n in s.ext.agents ==> CompTyped(s.sorts, s.channels, s.ext.agents[n]))
  }

  /** Channels are only added, and keep their owner and schema. */
  ghost predicate Extends(cs: seq<Channel>, cs': seq<Channel>) {
    && |cs| <= |cs'|
    && forall c :: 0 <= c < |cs| ==>
         cs'[c].owner == cs[c].owner && cs'[c].scheduled == cs[c].scheduled && cs'[c].schema == cs[c].schema
  }

  // ------------------------------------------------------------------ edits keep boxes typed

  lemma {:induction false} DrainTyped(sort: Sort, id: Id, cs: seq<Channel>, b: Box, es: seq<Edit>)
    requires BoxTyped(sort, id, cs, b) && EditsTyped(sort, id, cs, es)
    ensures Drain(b, es).box.Some? && BoxTyped(sort, id, cs, Drain(b, es).box.value)
    decreases |es|
  {
    if es != [] {
      assert EditTyped(sort, id, cs, es[0]);
      DrainTyped(sort, id, cs, EditOne(b, es[0]).value, es[1..]);
    }
  }

  ghost predicate StatesTyped(sorts: map<Id, Sort>, cs: seq<Channel>, agents: map<Id, CompState>) {
    forall i :: i in agents ==> i in sorts && AgentTyped(sorts[i], i, cs, agents[i])
  }

  ghost predicate EffectTyped(sorts: map<Id, Sort>, cs: seq<Channel>, e: Effect) {
    && StatesTyped(sorts, cs, e.st.agents)
    && (forall k :: 0 <= k < |e.spawned| ==>
          e.spawned[k].id in sorts && BoxTyped(sorts[e.spawned[k].id], e.spawned[k].id, cs, e.spawned[k].box))
    && e.status != Reported
  }

  lemma RunTyped(sorts: map<Id, Sort>, cs: seq<Channel>, st: Sched, id: Id)
    requires id in st.agents && StatesTyped(sorts, cs, st.agents)
    ensures EffectTyped(sorts, cs, Run(st, id))
  {
    assert AgentTyped(sorts[id], id, cs, st.agents[id]);
  }

  lemma CountTyped(sorts: map<Id, Sort>, cs: seq<Channel>, st: Sched, m: CompMsg)
    requires m.Inc? || m.Dec? || m.Start?
    requires StatesTyped(sorts, cs, st.agents)
    ensures EffectTyped(sorts, cs, Handle(st, m))
  {
    if m.id in st.agents {
      var c := st.agents[m.id];
      var c' := if m.Inc? then c.(ips := c.ips + 1) else if m.Dec? then c.(ips := c.ips - 1) else c.(canRun := true);
      CounterTyped(sorts, cs, st, m.id, c');
      RunTyped(sorts, cs, st.(agents := st.agents[m.id := c']), m.id);
    }
  }

  lemma CounterTyped(sorts: map<Id, Sort>, cs: seq<Channel>, st: Sched, id: Id, c: CompState)
    requires id in st.agents && StatesTyped(sorts, cs, st.agents)
    requires c.comp == st.agents[id].comp && c.editMsgs == st.agents[id].editMsgs
    ensures StatesTyped(sorts, cs, st.agents[id := c])
  {
    assert AgentTyped(sorts[id], id, cs, st.agents[id]);
  }

  lemma EditHandledTyped(sorts: map<Id, Sort>, cs: seq<Channel>, st: Sched, m: CompMsg)
    requires m.EditAgent? && MsgTyped(sorts, cs, m)
    requires StatesTyped(sorts, cs, st.agents)
    ensures EffectTyped(sorts, cs, Handle(st, m))
  {
    if m.id in st.agents {
      var c := st.agents[m.id];
      assert AgentTyped(sorts[m.id], m.id, cs, c);
      if c.comp.Some? {
        DrainTyped(sorts[m.id], m.id, cs, c.comp.value, [m.edit]);
        assert Drain(c.comp.value, [m.edit]).box == EditOne(c.comp.value, m.edit) by {
          assert [m.edit][1..] == [];
        }
      }
    }
  }

  lemma RunEndTyped(sorts: map<Id, Sort>, cs: seq<Channel>, st: Sched, m: CompMsg)
    requires m.RunEnd? && MsgTyped(sorts, cs, m)
    requires StatesTyped(sorts, cs, st.agents)
    ensures EffectTyped(sorts, cs, Handle(st, m))
  {
    if m.id in st.agents {
      var c := st.agents[m.id];
      assert AgentTyped(sorts[m.id], m.id, cs, c);
      DrainTyped(sorts[m.id], m.id, cs, m.box, c.editMsgs);
      var stop := m.res == End && c.isRun;
      var c' := c.(comp := Drain(m.box, c.editMsgs).box, editMsgs := [], isRun := if stop then false else c.isRun);
      assert AgentTyped(sorts[m.id], m.id, cs, c');
      RunTyped(sorts, cs, st.(agents := st.agents[m.id := c'], running := if stop then st.running - 1 else st.running), m.id);
    }
  }

  lemma HandleTyped(sorts: map<Id, Sort>, cs: seq<Channel>, st: Sched, m: CompMsg)
    requires m != Halt && MsgTyped(sorts, cs, m)
    requires StatesTyped(sorts, cs, st.agents)
    ensures EffectTyped(sorts, cs, Handle(st, m))
  {
    if m.Inc? || m.Dec? || m.Start? {
      CountTyped(sorts, cs, st, m);
    } else if m.EditAgent? {
      EditHandledTyped(sorts, cs, st, m);
    } else if m.RunEnd? {
      RunEndTyped(sorts, cs, st, m);
    }
  }

  lemma TypedExtends(sorts: map<Id, Sort>, sorts': map<Id, Sort>, cs: seq<Channel>, cs': seq<Channel>)
    requires Extends(cs, cs')
    requires forall i :: i in sorts ==> i in sorts' && sorts'[i] == sorts[i]
    ensures forall sort, id, e :: EditTyped(sort, id, cs, e) ==> EditTyped(sort, id, cs', e)
    ensures forall sort, id, b :: BoxTyped(sort, id, cs, b) ==> BoxTyped(sort, id, cs', b)
    ensures forall sort, id, c :: AgentTyped(sort, id, cs, c) ==> AgentTyped(sort, id, cs', c)
    ensures forall m :: MsgTyped(sorts, cs, m) ==> MsgTyped(sorts', cs', m)
    ensures forall c :: CompTyped(sorts, cs, c) ==> CompTyped(sorts', cs', c)
  {
  }

  // ------------------------------------------------------------------ what the connect methods post

  function OutSchema(x: Exterior.Ext, call: Call): Option<string>
    requires call.compOut in x.agents
  {
    var sort := x.agents[call.compOut].sort;
    if call.FromArray? || call.BothArrays? then Lookup(sort.outarr, call.portOut) else Lookup(sort.outputs, call.portOut)
  }

  function InSchema(x: Exterior.Ext, call: Call): Option<string>
    requires call.compIn in x.agents
  {
    var sort := x.agents[call.compIn].sort;
    if call.ToArray? || call.BothArrays? then Lookup(sort.inarr, call.portIn) else Exterior.SchemaInput(sort, call.portIn)
  }

  /** The channel registered for the receiving port or element. */
  function Target(x: Exterior.Ext, call: Call): Option<ChanId>
    requires call.compIn in x.agents
  {
    var c := x.agents[call.compIn];
    if call.ToArray? || call.BothArrays? then
      if call.portIn in c.inputsArray && call.elementIn in c.inputsArray[call.portIn]
      then Some(c.inputsArray[call.portIn][call.elementIn]) else None
    else if call.portIn in c.inputs then Some(c.inputs[call.portIn]) else None
  }

  /** All four connect methods at once: a connection is posted exactly when both agents exist, both ports are declared
      with compatible schemas and the receiving channel is registered; and it joins the named port to that channel. */
  lemma ConnectPostsIff(x: Exterior.Ext, call: Call)
    ensures ConnectMsg(x, call).Ok? <==>
      && call.compOut in x.agents && call.compIn in x.agents
      && OutSchema(x, call).Some? && InSchema(x, call).Some? && Target(x, call).Some?
      && Exterior.Compatible(InSchema(x, call).value, OutSchema(x, call).value)
    ensures ConnectMsg(x, call).Ok? ==>
      var c := Target(x, call).value;
      ConnectMsg(x, call).value == EditAgent(x.agents[call.compOut].id,
        if call.FromArray? || call.BothArrays? then ConnectOutputArrayPort(call.portOut, call.elementOut, c)
        else ConnectOutputPort(call.portOut, c))
  {
  }

  /** Whichever connect method succeeds, the edit it posts is typed, and so is accepted by edit_one_comp. */
  lemma ConnectPostsTypedEdit(s: Sys, call: Call)
    requires Wired(s) && ConnectMsg(s.ext, call).Ok?
    ensures PostsTyped(s, call.compOut, ConnectMsg(s.ext, call).value)
  {
    if call.ToArray? || call.BothArrays? {
      ToArrayTyped(s, call);
    } else {
      ToPortTyped(s, call);
    }
  }

  ghost predicate PostsTyped(s: Sys, compOut: string, m: CompMsg) {
    && m.EditAgent? && MsgTyped(s.sorts, s.channels, m)
    && EditOk(s.sorts[m.id], m.edit)
    && compOut in s.ext.agents && m.id == s.ext.agents[compOut].id
  }

  lemma ToPortTyped(s: Sys, call: Call)
    requires Wired(s) && ConnectMsg(s.ext, call).Ok? && (call.Simple? || call.FromArray?)
    ensures PostsTyped(s, call.compOut, ConnectMsg(s.ext, call).value)
  {
    assert CompTyped(s.sorts, s.channels, s.ext.agents[call.compOut]);
    SenderTyped(s, call.compIn, call.portIn);
  }

  lemma ToArrayTyped(s: Sys, call: Call)
    requires Wired(s) && ConnectMsg(s.ext, call).Ok? && (call.ToArray? || call.BothArrays?)
    ensures PostsTyped(s, call.compOut, ConnectMsg(s.ext, call).value)
  {
    assert CompTyped(s.sorts, s.channels, s.ext.agents[call.compOut]);
    ArraySenderTyped(s, call.compIn, call.portIn, call.elementIn);
  }

  lemma SenderTyped(s: Sys, n: string, port: string)
    requires Wired(s) && Exterior.GetSender(s.ext, n, port).Ok?
    ensures var c := Exterior.GetSender(s.ext, n, port).value;
      c < |s.channels| && Exterior.SchemaInput(s.ext.agents[n].sort, port) == Some(s.channels[c].schema)
  {
    assert CompTyped(s.sorts, s.channels, s.ext.agents[n]);
  }

  lemma {:induction false} ArraySenderTyped(s: Sys, n: string, port: string, el: string)
    requires Wired(s) && Exterior.GetArraySender(s.ext, n, port, el).Ok?
    ensures var c := Exterior.GetArraySender(s.ext, n, port, el).value;
      c < |s.channels| && Lookup(s.ext.agents[n].sort.inarr, port) == Some(s.channels[c].schema)
  {
    var comp := s.ext.agents[n];
    assert CompTyped(s.sorts, s.channels, comp);
    assert EditTyped(comp.sort, comp.id, s.channels, AddInputArrayElement(port, el, comp.inputsArray[port][el]));
  }

  // ------------------------------------------------------------------ the invariant

  /** Posting one typed message from outside, with more channels and possibly one more sort. */
  lemma PostWired(s: Sys, t: Sys, m: CompMsg)
    requires Wired(s) && Extends(s.channels, t.channels)
    requires t.sched == s.sched && t.jobs == s.jobs && t.mailbox == s.mailbox + [m]
    requires forall i :: i in t.sorts <==> 0 <= i < t.ext.nextId
    requires forall i :: i in s.sorts ==> i in t.sorts && t.sorts[i] == s.sorts[i]
    requires MsgTyped(t.sorts, t.channels, m)
    requires forall n :: n in t.ext.agents ==>
      (n in s.ext.agents && t.ext.agents[n] == s.ext.agents[n]) || CompTyped(t.sorts, t.channels, t.ext.agents[n])
    ensures Wired(t)
  {
    TypedExtends(s.sorts, t.sorts, s.channels, t.channels);
  }

  lemma NewChannelTyped(id: Id, sort: Sort, cs: seq<Channel>, p: string)
    requires p in Exterior.InputSenders(sort, |cs|)
    ensures var c, all := Exterior.InputSenders(sort, |cs|)[p], cs + NodeChannels(id, sort);
      && c < |all| && all[c].owner == id && (all[c].scheduled <==> Declares(sort.inputs, p))
      && (Exterior.SchemaInput(sort, p).Some? ==> all[c].schema == Exterior.SchemaInput(sort, p).value)
  {
    NodeChannelsOwner(id, sort);
    InputSendersAt(sort, |cs|, p);
    var c := Exterior.InputSenders(sort, |cs|)[p];
    assert (cs + NodeChannels(id, sort))[c] == NodeChannels(id, sort)[c - |cs|];
  }

  lemma NewPortsMade(x: Exterior.Ext, cs: seq<Channel>, name: string, sort: Sort)
    ensures PortsMade(cs + NodeChannels(x.nextId, sort), Exterior.AddNode(x, name, sort, |cs|).0.agents[name])
  {
    var senders, all := Exterior.InputSenders(sort, |cs|), cs + NodeChannels(x.nextId, sort);
    forall p | p in senders ensures senders[p] < |all| && (all[senders[p]].scheduled <==> Declares(sort.inputs, p)) {
      NewChannelTyped(x.nextId, sort, cs, p);
    }
    forall p, q | p in senders && q in senders && senders[p] == senders[q] ensures p == q {
      InputSendersAt(sort, |cs|, p);
      InputSendersAt(sort, |cs|, q);
    }
  }

  lemma NewCompTyped(s: Sys, t: Sys, name: string, sort: Sort)
    requires t.channels == s.channels + NodeChannels(s.ext.nextId, sort)
    requires s.ext.nextId in t.sorts && t.sorts[s.ext.nextId] == sort
    ensures CompTyped(t.sorts, t.channels, Exterior.AddNode(s.ext, name, sort, |s.channels|).0.agents[name])
  {
    NewPortsMade(s.ext, s.channels, name, sort);
    forall p | p in Exterior.InputSenders(sort, |s.channels|)
      ensures var c := Exterior.InputSenders(sort, |s.channels|)[p];
        && c < |t.channels| && t.channels[c].owner == s.ext.nextId
        && (Exterior.SchemaInput(sort, p).Some? ==> t.channels[c].schema == Exterior.SchemaInput(sort, p).value)
    {
      NewChannelTyped(s.ext.nextId, sort, s.channels, p);
    }
  }

  lemma AddNodeWired(s: Sys, step: Step)
    requires Ordered(s) && Wired(s) && Enabled(s, step) && step.AddNode?
    ensures Wired(Next(s, step))
  {
    var m := OutsideStep(s, step);
    NewCompTyped(s, Next(s, step), step.name, step.sort);
    FreshAgentWired(s, Next(s, step), m, step.name, step.sort);
  }

  lemma FreshAgentWired(s: Sys, t: Sys, m: CompMsg, name: string, sort: Sort)
    requires Wired(s) && Extends(s.channels, t.channels)
    requires t.sched == s.sched && t.jobs == s.jobs && t.mailbox == s.mailbox + [m]
    requires m == NewAgent(s.ext.nextId, name, NewBox(sort))
    requires t.sorts == s.sorts[s.ext.nextId := sort] && t.ext.nextId == s.ext.nextId + 1
    requires name in t.ext.agents && t.ext.agents == s.ext.agents[name := t.ext.agents[name]]
    requires CompTyped(t.sorts, t.channels, t.ext.agents[name])
    ensures Wired(t)
  {
    PostWired(s, t, m);
  }

  lemma {:induction false} InputSendersAt(s: Sort, base: ChanId, p: string)
    requires p in Exterior.InputSenders(s, base)
    ensures var c := Exterior.InputSenders(s, base)[p];
      c == if Declares(s.inputs, p) then base + 2 + Exterior.IndexOf(s.inputs, p)
           else if p == "option" then base else base + 1
  {
    var names := set i | 0 <= i < |s.inputs| :: s.inputs[i].name;
    if Declares(s.inputs, p) {
      var i :| 0 <= i < |s.inputs| && s.inputs[i].name == p;
      assert p in names;
    }
  }

  lemma WithElementTyped(sorts: map<Id, Sort>, cs: seq<Channel>, c: Exterior.Comp, port: string, el: string, chan: ChanId)
    requires CompTyped(sorts, cs, c)
    requires EditTyped(c.sort, c.id, cs, AddInputArrayElement(port, el, chan))
    ensures CompTyped(sorts, cs, Exterior.WithElement(c, port, el, chan))
  {
    var c' := Exterior.WithElement(c, port, el, chan);
    forall p, e | p in c'.inputsArray && e in c'.inputsArray[p]
      ensures EditTyped(c.sort, c.id, cs, AddInputArrayElement(p, e, c'.inputsArray[p][e]))
    {
      if p != port || e != el {
        assert p in c.inputsArray && e in c.inputsArray[p];
      }
    }
  }

  lemma AddElementWired(s: Sys, n: string, port: string, el: string)
    requires Wired(s) && Exterior.AddInputElement(s.ext, n, port, el, |s.channels|).Ok?
    ensures Wired(AddElementTo(s, n, port, el))
  {
    var t := AddElementTo(s, n, port, el);
    var c := s.ext.agents[n];
    assert CompTyped(s.sorts, s.channels, c);
    assert t.channels == s.channels + [Open(c.id, true, Lookup(c.sort.inarr, port))];
    TypedExtends(s.sorts, t.sorts, s.channels, t.channels);
    WithElementTyped(t.sorts, t.channels, c, port, el, |s.channels|);
    PostWired(s, t, EditAgent(c.id, AddInputArrayElement(port, el, |s.channels|)));
  }

  lemma OutsideWired(s: Sys, step: Step)
    requires Ordered(s) && Wired(s) && Enabled(s, step)
    requires step.Connect? || step.StartAgent? || step.Join?
    ensures Wired(Next(s, step))
  {
    var m := OutsideStep(s, step);
    if step.Connect? {
      ConnectPostsTypedEdit(s, step.call);
    } else if step.StartAgent? {
      assert CompTyped(s.sorts, s.channels, s.ext.agents[step.name]);
    }
    PostWired(s, Next(s, step), m);
  }

  lemma DispatchWired(s: Sys)
    requires Ordered(s) && Wired(s) && Enabled(s, Dispatch)
    ensures Wired(TakeOne(s))
  {
    DispatchKeepsOrder(s);
    if s.mailbox[0] != Halt {
      var m := s.mailbox[0];
      var e := Handle(s.sched, m);
      HandleTouchesOneId(s.sched, m);
      HandleTyped(s.sorts, s.channels, s.sched, m);
      TakeOneFacts(s);
      DropAllKeeps(s.channels, e.dropped);
      WiredAfterTake(s, TakeOne(s), e);
    }
  }

  lemma WiredAfterTake(s: Sys, t: Sys, e: Effect)
    requires Wired(s) && s.mailbox != []
    requires t.sorts == s.sorts && t.ext == s.ext && Extends(s.channels, t.channels)
    requires t.sched == e.st && t.mailbox == s.mailbox[1..] + e.posts && (e.posts == [] || e.posts == [Halt])
    requires |e.spawned| <= 1 && t.jobs == (if e.spawned == [] then s.jobs else s.jobs[s.nextJob := e.spawned[0]])
    requires EffectTyped(s.sorts, s.channels, e)
    ensures Wired(t)
  {
    TypedExtends(s.sorts, t.sorts, s.channels, t.channels);
    forall p | 0 <= p < |t.mailbox| ensures MsgTyped(t.sorts, t.channels, t.mailbox[p]) {
      if p < |s.mailbox| - 1 {
        assert t.mailbox[p] == s.mailbox[p + 1];
        assert MsgTyped(s.sorts, s.channels, s.mailbox[p + 1]);
      }
    }
  }

  lemma WorkerWired(s: Sys, step: Step)
    requires Ordered(s) && Wired(s) && Enabled(s, step)
    requires step.Push? || step.Pop? || step.Announce? || step.Finish?
    ensures Wired(Next(s, step))
  {
    if step.Push? || step.Pop? {
      MoveWired(s, Next(s, step));
    } else if step.Announce? {
      PostWired(s, Next(s, step), s.half[step.actor]);
    } else {
      ReturnWired(s, step.job, step.res);
    }
  }

  lemma MoveWired(s: Sys, t: Sys)
    requires Wired(s) && Extends(s.channels, t.channels) && t == s.(channels := t.channels, half := t.half)
    ensures Wired(t)
  {
    TypedExtends(s.sorts, s.sorts, s.channels, t.channels);
  }

  lemma ReturnWired(s: Sys, j: nat, res: RunResult)
    requires Wired(s) && Enabled(s, Finish(j, res))
    ensures Wired(Next(s, Finish(j, res)))
  {
    assert MsgTyped(s.sorts, s.channels, RunEnd(s.jobs[j].id, s.jobs[j].box, res));
  }

  lemma StepKeepsWiring(s: Sys, step: Step)
    requires Ordered(s) && Wired(s) && Enabled(s, step)
    ensures Wired(Next(s, step))
  {
    if step.Dispatch? {
      DispatchWired(s);
    } else if step.AddNode? {
      AddNodeWired(s, step);
    } else if step.AddElement? || step.SoftAddElement? {
      if PostsFromOutside(s, step) { AddElementWired(s, step.comp, step.port, step.element); }
    } else if PostsFromOutside(s, step) {
      OutsideWired(s, step);
    } else {
      WorkerWired(s, step);
    }
  }
}
