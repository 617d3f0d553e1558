// What the calls of the exterior API come to: the boxes of the agents hold exactly the channels that the calls named,
// each place the one of the last call about it.
module Connections {
  import opened Wrappers
  import opened Interior
  import opened System
  import opened Ordering
  import opened Wiring
  import opened Ownership
  import opened Edits
  import opened Views
  import opened Runs
  import Exterior

  /** The output port, or element of one, that a connect call is about. */
  function CallSlot(call: Call): Slot {
    if call.FromArray? || call.BothArrays? then OutElement(call.portOut, call.elementOut) else OutPort(call.portOut)
  }

  function Connection(call: Call, c: ChanId): Edit {
    if call.FromArray? || call.BothArrays? then ConnectOutputArrayPort(call.portOut, call.elementOut, c)
    else ConnectOutputPort(call.portOut, c)
  }

  /** The edits that one step asks of agent `id`. */
  function Asked(s: Sys, step: Step, id: Id): seq<Edit> {
    match step
    case Connect(call) =>
      if call.compOut in s.ext.agents && s.ext.agents[call.compOut].id == id && call.compIn in s.ext.agents
         && Target(s.ext, call).Some?
      then [Connection(call, Target(s.ext, call).value)] else []
    case AddElement(n, p, e) =>
      if n in s.ext.agents && s.ext.agents[n].id == id then [AddInputArrayElement(p, e, |s.channels|)] else []
    case SoftAddElement(n, p, e) =>
      if n in s.ext.agents && s.ext.agents[n].id == id && !Holds(s.ext.agents[n], p, e)
      then [AddInputArrayElement(p, e, |s.channels|)] else []
    case _ => []
  }

  function AskedBy(s: Sys, steps: seq<Step>, id: Id): seq<Edit>
    requires Legal(s, steps)
    decreases |steps|
  {
    if steps == [] then [] else Asked(s, steps[0], id) + AskedBy(Next(s, steps[0]), steps[1..], id)
  }

  // ------------------------------------------------------------------ the log is what was asked for

  lemma OutsideLog(s: Sys, step: Step, id: Id)
    requires Enabled(s, step) && PostsFromOutside(s, step)
    ensures Log(Next(s, step), id) == Log(s, id) + Asked(s, step, id)
  {
    var m := OutsideStep(s, step);
    PostGrowsLog(s, Next(s, step), m, id);
    if step.Connect? {
      ConnectPostsIff(s.ext, step.call);
    }
  }

  lemma WorkerLog(s: Sys, step: Step, id: Id)
    requires Ordered(s) && Enabled(s, step) && !step.Dispatch? && !PostsFromOutside(s, step)
    ensures Log(Next(s, step), id) == Log(s, id) && Asked(s, step, id) == []
  {
    var t := Next(s, step);
    if step.Announce? {
      PostGrowsLog(s, t, s.half[step.actor], id);
    } else if step.Finish? {
      PostGrowsLog(s, t, RunEnd(s.jobs[step.job].id, s.jobs[step.job].box, step.res), id);
    }
  }

  lemma StepLog(s: Sys, step: Step, id: Id)
    requires Ordered(s) && Wired(s) && OwnershipInv(s) && Refines(s) && Enabled(s, step)
    ensures Log(Next(s, step), id) == Log(s, id) + Asked(s, step, id)
  {
    if step.Dispatch? {
      DispatchKeepsLog(s, id);
    } else if PostsFromOutside(s, step) {
      OutsideLog(s, step, id);
    } else {
      WorkerLog(s, step, id);
    }
  }

  lemma {:induction false} RunLog(s: Sys, steps: seq<Step>, id: Id)
    requires Sound(s) && Legal(s, steps)
    ensures Log(After(s, steps), id) == Log(s, id) + AskedBy(s, steps, id)
    decreases |steps|
  {
    if steps != [] {
      var t := Next(s, steps[0]);
      StepSound(s, steps[0]);
      StepLog(s, steps[0], id);
      RunLog(t, steps[1..], id);
      Regroup(Log(s, id), Asked(s, steps[0], id), AskedBy(t, steps[1..], id));
    }
  }

  lemma Regroup(a: seq<Edit>, b: seq<Edit>, c: seq<Edit>)
    ensures (a + b) + c == a + (b + c)
  {
  }

  // ------------------------------------------------------------------ what the boxes hold

  /** The box of `id` is at home and no edit of it is under way. */
  predicate Drained(s: Sys, id: Id) {
    id in s.sched.agents && s.sched.agents[id].comp.Some? && EditsFor(s.mailbox, id) == []
  }

  lemma DrainedReflects(s: Sys, id: Id, x: Slot)
    requires Refines(s) && Wired(s) && OwnershipInv(s) && Drained(s, id)
    ensures InSlot(s.sched.agents[id].comp.value, x) == Newest(Log(s, id), x)
  {
    RefinesMeans(s, id, 0);
    assert s.received[id] + [] == s.received[id];
  }

  lemma {:induction false} EverAsked(steps: seq<Step>, id: Id)
    requires Legal(Init, steps)
    ensures Sound(After(Init, steps)) && Log(After(Init, steps), id) == AskedBy(Init, steps, id)
  {
    InitSound();
    FreshAsked(Init, steps, id);
  }

  lemma {:induction false} FreshAsked(s: Sys, steps: seq<Step>, id: Id)
    requires Sound(s) && Legal(s, steps) && s.received == map[] && s.mailbox == []
    ensures Sound(After(s, steps)) && Log(After(s, steps), id) == AskedBy(s, steps, id)
  {
    RunSound(s, steps);
    RunLog(s, steps, id);
  }

  /** Once its edits are drained, an agent holds at every output port, output element and input element the channel of
      the last call about it, and nothing elsewhere. */
  lemma {:induction false} CallsTakeEffect(steps: seq<Step>, id: Id, x: Slot)
    requires Legal(Init, steps) && Drained(After(Init, steps), id)
    ensures InSlot(After(Init, steps).sched.agents[id].comp.value, x) == Newest(AskedBy(Init, steps, id), x)
  {
    EverAsked(steps, id);
    DrainedReflects(After(Init, steps), id, x);
  }

  lemma {:induction false} NewestConcat(es: seq<Edit>, fs: seq<Edit>, x: Slot)
    ensures Newest(es + fs, x) == if Newest(fs, x).Some? then Newest(fs, x) else Newest(es, x)
    decreases |fs|
  {
    if fs == [] {
      assert es + fs == es;
    } else {
      var n := |fs| - 1;
      assert (es + fs)[..|es + fs| - 1] == es + fs[..n];
      NewestConcat(es, fs[..n], x);
    }
  }

  lemma NewestInMiddle(before: seq<Edit>, e: Edit, after: seq<Edit>)
    requires forall f :: f in after ==> SlotOf(f) != SlotOf(e)
    ensures Newest(before + [e] + after, SlotOf(e)) == Some(ChanOf(e))
  {
    NoneIff(after, SlotOf(e));
    NewestConcat(before + [e], after, SlotOf(e));
    assert (before + [e])[|before + [e]| - 1] == e;
  }

  /** The log after a connect call and what followed it. */
  lemma {:induction false} CallLogged(s: Sys, call: Call, after: seq<Step>)
    requires Sound(s) && Enabled(s, Connect(call)) && Legal(Next(s, Connect(call)), after)
    ensures call.compOut in s.ext.agents && call.compIn in s.ext.agents && Target(s.ext, call).Some?
    ensures var t, id := Next(s, Connect(call)), s.ext.agents[call.compOut].id; var u := After(t, after);
      Sound(u) && Log(u, id) == Log(s, id) + [Connection(call, Target(s.ext, call).value)] + AskedBy(t, after, id)
  {
    ConnectPostsIff(s.ext, call);
    StepSound(s, Connect(call));
    StepLog(s, Connect(call), s.ext.agents[call.compOut].id);
    RunSound(Next(s, Connect(call)), after);
    RunLog(Next(s, Connect(call)), after, s.ext.agents[call.compOut].id);
  }

  lemma NewestHeld(u: Sys, id: Id, before: seq<Edit>, e: Edit, after: seq<Edit>)
    requires Refines(u) && Wired(u) && OwnershipInv(u) && Drained(u, id) && Log(u, id) == before + [e] + after
    requires forall f :: f in after ==> SlotOf(f) != SlotOf(e)
    ensures InSlot(u.sched.agents[id].comp.value, SlotOf(e)) == Some(ChanOf(e))
  {
    DrainedReflects(u, id, SlotOf(e));
    NewestInMiddle(before, e, after);
  }

  lemma {:induction false} CallReaches(s: Sys, call: Call, after: seq<Step>, id: Id)
    requires Sound(s) && Enabled(s, Connect(call)) && Legal(Next(s, Connect(call)), after)
    requires call.compOut in s.ext.agents && id == s.ext.agents[call.compOut].id
    requires Drained(After(Next(s, Connect(call)), after), id)
    requires forall e :: e in AskedBy(Next(s, Connect(call)), after, id) ==> SlotOf(e) != CallSlot(call)
    ensures call.compIn in s.ext.agents && Target(s.ext, call).Some?
    ensures InSlot(After(Next(s, Connect(call)), after).sched.agents[id].comp.value, CallSlot(call)) == Target(s.ext, call)
  {
    CallLogged(s, call, after);
    var c := Target(s.ext, call).value;
    ConnectionIs(call, c);
    NewestHeld(After(Next(s, Connect(call)), after), id, Log(s, id), Connection(call, c), AskedBy(Next(s, Connect(call)), after, id));
  }

  lemma ConnectionIs(call: Call, c: ChanId)
    ensures SlotOf(Connection(call, c)) == CallSlot(call) && ChanOf(Connection(call, c)) == c
  {
  }

  /** A connect call that no later one overrides leaves, once drained, the output port it names connected to the channel
      that was registered for the receiving port when it was made. */
  lemma {:induction false} ConnectReaches(before: seq<Step>, call: Call, after: seq<Step>, id: Id)
    requires Legal(Init, before) && Enabled(After(Init, before), Connect(call))
    requires Legal(Next(After(Init, before), Connect(call)), after)
    requires var s := After(Init, before); var t := Next(s, Connect(call));
      && call.compOut in s.ext.agents && id == s.ext.agents[call.compOut].id && Drained(After(t, after), id)
      && forall e :: e in AskedBy(t, after, id) ==> SlotOf(e) != CallSlot(call)
    ensures var s := After(Init, before); var u := After(Next(s, Connect(call)), after);
      && call.compIn in s.ext.agents && Target(s.ext, call).Some?
      && InSlot(u.sched.agents[id].comp.value, CallSlot(call)) == Target(s.ext, call)
  {
    EverAsked(before, id);
    CallReaches(After(Init, before), call, after, id);
  }

  // ------------------------------------------------------------------ which calls go through

  /** Agent `n` is registered with `port` among its array inputs. */
  predicate HasArrayInput(s: Sys, n: string, port: string) {
    n in s.ext.agents &&
      var ports := s.ext.agents[n].sort.inarr;
      exists i :: 0 <= i < |ports| && ports[i].name == port
  }

  /** Before stopping was asked for, every call goes through that names registered agents and declared ports, and no
      other does; asking softly for an element makes no difference to that. */
  lemma {:induction false} CallsIff(steps: seq<Step>, call: Call, n: string, port: string, element: string, sort: Sort)
    requires Legal(Init, steps) && !After(Init, steps).extDone
    ensures var s := After(Init, steps);
      && Enabled(s, AddNode(n, sort))
      && (Enabled(s, StartAgent(n)) <==> n in s.ext.agents)
      && (Enabled(s, AddElement(n, port, element)) <==> HasArrayInput(s, n, port))
      && (Enabled(s, SoftAddElement(n, port, element)) <==> HasArrayInput(s, n, port))
      && (Enabled(s, Connect(call)) <==>
            && call.compOut in s.ext.agents && call.compIn in s.ext.agents
            && OutSchema(s.ext, call).Some? && InSchema(s.ext, call).Some? && Target(s.ext, call).Some?
            && Exterior.Compatible(InSchema(s.ext, call).value, OutSchema(s.ext, call).value))
  {
    InitSound();
    RunSound(Init, steps);
    ElementCalls(After(Init, steps), n, port, element);
    OtherCalls(After(Init, steps), call, n, sort);
  }

  lemma OtherCalls(s: Sys, call: Call, n: string, sort: Sort)
    requires !s.extDone
    ensures Enabled(s, AddNode(n, sort)) && (Enabled(s, StartAgent(n)) <==> n in s.ext.agents)
    ensures Enabled(s, Connect(call)) <==>
      && call.compOut in s.ext.agents && call.compIn in s.ext.agents
      && OutSchema(s.ext, call).Some? && InSchema(s.ext, call).Some? && Target(s.ext, call).Some?
      && Exterior.Compatible(InSchema(s.ext, call).value, OutSchema(s.ext, call).value)
  {
    ConnectPostsIff(s.ext, call);
  }

  lemma ElementCalls(s: Sys, n: string, port: string, element: string)
    requires Wired(s) && !s.extDone
    ensures Enabled(s, AddElement(n, port, element)) <==> HasArrayInput(s, n, port)
    ensures Enabled(s, SoftAddElement(n, port, element)) <==> HasArrayInput(s, n, port)
  {
    if Exterior.HasElement(s.ext, n, port, element) {
      var c := s.ext.agents[n];
      assert CompTyped(s.sorts, s.channels, c);
      assert EditTyped(c.sort, c.id, s.channels, AddInputArrayElement(port, element, c.inputsArray[port][element]));
    }
  }
}
