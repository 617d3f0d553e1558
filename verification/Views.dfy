// The exterior table of array inputs and the receivers the agents hold describe the same channels, up to
// the edits still on their way; and with soft additions only, no channel is ever cut.
module Views {
  import opened Wrappers
  import opened Interior
  import opened System
  import opened Ordering
  import opened Wiring
  import opened Ownership
  import opened Edits
  import Exterior

  predicate Holds(c: Exterior.Comp, port: string, element: string) {
    port in c.inputsArray && element in c.inputsArray[port]
  }

  /** Table `held` of the interior and table of `c` map the same (port, element) pairs to the same channels. */
  ghost predicate SameView(c: Exterior.Comp, held: map<(string, string), ChanId>) {
    && (forall p, e :: (p, e) in held <==> Holds(c, p, e))
    && (forall p, e :: (p, e) in held ==> held[(p, e)] == c.inputsArray[p][e])
  }

  /** The box an agent ends up with once everything posted to it has been handled and applied. */
  function Settling(s: Sys, c: Exterior.Comp): Box {
    ApplyAll(NewBox(c.sort), Log(s, c.id))
  }

  ghost predicate Agrees(s: Sys) {
    && (forall n :: n in s.ext.agents ==> SameView(s.ext.agents[n], Settling(s, s.ext.agents[n]).inarr))
    && (forall n, k :: n in s.ext.agents && k in s.ext.agents && s.ext.agents[n].id == s.ext.agents[k].id ==> n == k)
  }

  // ------------------------------------------------------------------ the log only grows

  lemma TurnKeepsLog(s: Sys, t: Sys, e: Effect, id: Id)
    requires Refines(s) && s.mailbox != [] && HasId(s.mailbox[0]) && TurnShape(s, t, e)
    ensures Log(t, id) == Log(s, id)
  {
    RecordKeys(s.received, s.mailbox[0]);
    TakenKeepsLog(s, t, e.posts, id);
  }

  lemma TakenKeepsLog(s: Sys, t: Sys, posts: seq<CompMsg>, id: Id)
    requires s.mailbox != [] && (posts == [] || posts == [Halt])
    requires t.mailbox == s.mailbox[1..] + posts && t.received == Record(s.received, s.mailbox[0])
    requires s.mailbox[0].NewAgent? ==> s.mailbox[0].id !in s.received
    requires s.mailbox[0].EditAgent? ==> s.mailbox[0].id in s.received
    ensures Log(t, id) == Log(s, id)
  {
    var m, rest := s.mailbox[0], s.mailbox[1..];
    EditsForConcat(rest, posts, id);
    if posts == [Halt] {
      assert EditsFor([Halt][1..], id) == [];
    }
    if m.EditAgent? && m.id == id {
      assert s.received[id] + ([m.edit] + EditsFor(rest, id)) == (s.received[id] + [m.edit]) + EditsFor(rest, id);
    }
  }

  /** The two messages about no agent. */
  lemma StopKeepsLog(s: Sys, id: Id)
    requires Enabled(s, Dispatch) && !HasId(s.mailbox[0])
    ensures Log(TakeOne(s), id) == Log(s, id)
    ensures TakeOne(s).ext == s.ext
  {
    if s.mailbox[0] == Halt {
      assert TakeOne(s).mailbox == s.mailbox[1..] + [];
      TakenKeepsLog(s, TakeOne(s), [], id);
    } else {
      TakeOneFacts(s);
      TakenKeepsLog(s, TakeOne(s), Handle(s.sched, s.mailbox[0]).posts, id);
    }
  }

  lemma DispatchKeepsLog(s: Sys, id: Id)
    requires Ordered(s) && Wired(s) && OwnershipInv(s) && Refines(s) && Enabled(s, Dispatch)
    ensures Log(TakeOne(s), id) == Log(s, id)
    ensures TakeOne(s).ext == s.ext
  {
    if HasId(s.mailbox[0]) {
      TurnShapeHolds(s);
      TurnKeepsLog(s, TakeOne(s), Handle(s.sched, s.mailbox[0]), id);
    } else {
      StopKeepsLog(s, id);
    }
  }

  lemma PostGrowsLog(s: Sys, t: Sys, m: CompMsg, id: Id)
    requires t.mailbox == s.mailbox + [m] && t.received == s.received
    ensures Log(t, id) == Log(s, id) + (if m.EditAgent? && m.id == id then [m.edit] else [])
  {
    EditsForConcat(s.mailbox, [m], id);
    assert [m][1..] == [];
    assert EditsFor([m], id) == if m.EditAgent? && m.id == id then [m.edit] else [];
  }

  // ------------------------------------------------------------------ agreement

  /** Posting something that is not an array-input edit, or is for another id, changes no view. */
  lemma OtherPostAgrees(s: Sys, t: Sys, m: CompMsg, c: Exterior.Comp)
    requires t.mailbox == s.mailbox + [m] && t.received == s.received
    requires SameView(c, Settling(s, c).inarr)
    requires m.EditAgent? && m.id == c.id ==> !m.edit.AddInputArrayElement?
    ensures SameView(c, Settling(t, c).inarr)
  {
    PostGrowsLog(s, t, m, c.id);
    if m.EditAgent? && m.id == c.id {
      ApplyConcat(NewBox(c.sort), Log(s, c.id), [m.edit]);
      assert [m.edit][1..] == [];
    } else {
      assert Log(s, c.id) + [] == Log(s, c.id);
    }
  }

  lemma WithElementSame(c: Exterior.Comp, held: map<(string, string), ChanId>, port: string, el: string, chan: ChanId)
    requires SameView(c, held)
    ensures SameView(Exterior.WithElement(c, port, el, chan), held[(port, el) := chan])
  {
    var c' := Exterior.WithElement(c, port, el, chan);
    forall p, e ensures (p, e) in held[(port, el) := chan] <==> Holds(c', p, e) {
      assert Holds(c', p, e) <==> Holds(c, p, e) || (p == port && e == el);
      assert (p, e) in held <==> Holds(c, p, e);
    }
  }

  lemma AddedSettles(s: Sys, t: Sys, c: Exterior.Comp, port: string, el: string, chan: ChanId)
    requires SameView(c, Settling(s, c).inarr)
    requires t.mailbox == s.mailbox + [EditAgent(c.id, AddInputArrayElement(port, el, chan))] && t.received == s.received
    ensures var c' := Exterior.WithElement(c, port, el, chan); SameView(c', Settling(t, c').inarr)
  {
    var edit := AddInputArrayElement(port, el, chan);
    PostGrowsLog(s, t, EditAgent(c.id, edit), c.id);
    ApplyConcat(NewBox(c.sort), Log(s, c.id), [edit]);
    assert [edit][1..] == [];
    assert ApplyAll(Settling(s, c), [edit]) == Install(Settling(s, c), edit);
    WithElementSame(c, Settling(s, c).inarr, port, el, chan);
  }

  lemma AddElementAgrees(s: Sys, n: string, port: string, el: string)
    requires Agrees(s) && Exterior.AddInputElement(s.ext, n, port, el, |s.channels|).Ok?
    ensures Agrees(AddElementTo(s, n, port, el))
  {
    var t := AddElementTo(s, n, port, el);
    var c := s.ext.agents[n];
    var m := EditAgent(c.id, AddInputArrayElement(port, el, |s.channels|));
    AddedSettles(s, t, c, port, el, |s.channels|);
    forall k | k in s.ext.agents && k != n ensures SameView(s.ext.agents[k], Settling(t, s.ext.agents[k]).inarr) {
      OtherPostAgrees(s, t, m, s.ext.agents[k]);
    }
    AgreesAt(s, t, n);
  }

  lemma AgreesAt(s: Sys, t: Sys, n: string)
    requires Agrees(s) && n in t.ext.agents
    requires t.ext.agents == s.ext.agents[n := t.ext.agents[n]]
    requires SameView(t.ext.agents[n], Settling(t, t.ext.agents[n]).inarr)
    requires forall k :: k in s.ext.agents && k != n ==> SameView(s.ext.agents[k], Settling(t, s.ext.agents[k]).inarr)
    requires forall k :: k in s.ext.agents && k != n ==> t.ext.agents[n].id != s.ext.agents[k].id
    ensures Agrees(t)
  {
    forall k | k in t.ext.agents ensures SameView(t.ext.agents[k], Settling(t, t.ext.agents[k]).inarr) {
    }
    IdsApart(s.ext, t.ext, n);
  }

  lemma IdsApart(x: Exterior.Ext, y: Exterior.Ext, n: string)
    requires n in y.agents && y.agents == x.agents[n := y.agents[n]]
    requires forall j, k :: j in x.agents && k in x.agents && x.agents[j].id == x.agents[k].id ==> j == k
    requires forall k :: k in x.agents && k != n ==> y.agents[n].id != x.agents[k].id
    ensures forall j, k :: j in y.agents && k in y.agents && y.agents[j].id == y.agents[k].id ==> j == k
  {
  }

  lemma AddNodeAgrees(s: Sys, step: Step)
    requires Ordered(s) && Refines(s) && Agrees(s) && Enabled(s, step) && step.AddNode?
    ensures Agrees(Next(s, step))
  {
    var m := OutsideStep(s, step);
    FreshAgentAgrees(s, Next(s, step), m, step.name);
  }

  lemma FreshAgentAgrees(s: Sys, t: Sys, m: CompMsg, n: string)
    requires Ordered(s) && Refines(s) && Agrees(s)
    requires m.NewAgent? && t.mailbox == s.mailbox + [m] && t.received == s.received
    requires n in t.ext.agents && t.ext.agents == s.ext.agents[n := t.ext.agents[n]]
    requires t.ext.agents[n].id == s.ext.nextId && t.ext.agents[n].inputsArray == map[]
    ensures Agrees(t)
  {
    NewAgentAgrees(s, t, m, n);
    forall k | k in s.ext.agents && k != n ensures SameView(s.ext.agents[k], Settling(t, s.ext.agents[k]).inarr) {
      OtherPostAgrees(s, t, m, s.ext.agents[k]);
    }
    AgreesAt(s, t, n);
  }

  lemma NewAgentAgrees(s: Sys, t: Sys, m: CompMsg, n: string)
    requires Ordered(s) && Refines(s)
    requires m.NewAgent? && t.mailbox == s.mailbox + [m] && t.received == s.received
    requires n in t.ext.agents && t.ext.agents[n].id == s.ext.nextId && t.ext.agents[n].inputsArray == map[]
    ensures SameView(t.ext.agents[n], Settling(t, t.ext.agents[n]).inarr)
  {
    NoEditsFor(s.mailbox, s.ext.nextId);
    PostGrowsLog(s, t, m, s.ext.nextId);
    assert Log(s, s.ext.nextId) == [];
  }

  lemma ConnectIsNoInput(s: Sys, call: Call)
    requires ConnectMsg(s.ext, call).Ok?
    ensures ConnectMsg(s.ext, call).value.EditAgent? && !ConnectMsg(s.ext, call).value.edit.AddInputArrayElement?
  {
  }

  lemma PostAgrees(s: Sys, t: Sys, m: CompMsg)
    requires Agrees(s) && t.mailbox == s.mailbox + [m] && t.received == s.received && t.ext == s.ext
    requires m.EditAgent? ==> !m.edit.AddInputArrayElement?
    ensures Agrees(t)
  {
    forall k | k in t.ext.agents ensures SameView(t.ext.agents[k], Settling(t, t.ext.agents[k]).inarr) {
      OtherPostAgrees(s, t, m, s.ext.agents[k]);
    }
  }

  lemma SameLogAgrees(s: Sys, t: Sys)
    requires Agrees(s) && t.ext == s.ext && forall id: Id :: Log(t, id) == Log(s, id)
    ensures Agrees(t)
  {
    forall n | n in t.ext.agents ensures SameView(t.ext.agents[n], Settling(t, t.ext.agents[n]).inarr) {
      assert Settling(t, t.ext.agents[n]) == Settling(s, t.ext.agents[n]);
    }
  }

  lemma DispatchAgrees(s: Sys)
    requires Ordered(s) && Wired(s) && OwnershipInv(s) && Refines(s) && Agrees(s) && Enabled(s, Dispatch)
    ensures Agrees(TakeOne(s))
  {
    forall id: Id ensures Log(TakeOne(s), id) == Log(s, id) {
      DispatchKeepsLog(s, id);
    }
    DispatchKeepsLog(s, 0);
    SameLogAgrees(s, TakeOne(s));
  }

  lemma OutsideAgrees(s: Sys, step: Step)
    requires Agrees(s) && Enabled(s, step) && (step.Connect? || step.StartAgent? || step.Join?)
    ensures Agrees(Next(s, step))
  {
    var m := OutsideStep(s, step);
    if step.Connect? { ConnectIsNoInput(s, step.call); }
    PostAgrees(s, Next(s, step), m);
  }

  lemma WorkerAgrees(s: Sys, step: Step)
    requires Ordered(s) && Agrees(s) && Enabled(s, step)
    requires step.Push? || step.Pop? || step.Announce? || step.Finish?
    ensures Agrees(Next(s, step))
  {
    var t := Next(s, step);
    if step.Push? || step.Pop? {
      SameLogAgrees(s, t);
    } else if step.Announce? {
      PostAgrees(s, t, s.half[step.actor]);
    } else {
      PostAgrees(s, t, RunEnd(s.jobs[step.job].id, s.jobs[step.job].box, step.res));
    }
  }

  lemma StepAgrees(s: Sys, step: Step)
    requires Ordered(s) && Wired(s) && OwnershipInv(s) && Refines(s) && Agrees(s) && Enabled(s, step)
    ensures Agrees(Next(s, step))
  {
    if step.Dispatch? {
      DispatchAgrees(s);
    } else if step.AddNode? {
      AddNodeAgrees(s, step);
    } else if step.AddElement? || step.SoftAddElement? {
      if PostsFromOutside(s, step) { AddElementAgrees(s, step.comp, step.port, step.element); }
    } else if PostsFromOutside(s, step) {
      OutsideAgrees(s, step);
    } else {
      WorkerAgrees(s, step);
    }
  }

  /** Once the edits of an agent are drained, the agent holds exactly the receivers whose senders are listed. */
  lemma DrainedViewsAgree(s: Sys, n: string)
    requires Ordered(s) && Wired(s) && OwnershipInv(s) && Refines(s) && Agrees(s)
    requires n in s.ext.agents && EditsFor(s.mailbox, s.ext.agents[n].id) == []
    requires var id := s.ext.agents[n].id; id in s.sched.agents && s.sched.agents[id].comp.Some?
    ensures SameView(s.ext.agents[n], s.sched.agents[s.ext.agents[n].id].comp.value.inarr)
  {
    var c := s.ext.agents[n];
    var all := s.received[c.id];
    assert CompTyped(s.sorts, s.channels, c);
    assert AppliedAt(s.sched.agents, s.received, s.sorts, c.id, s.sched.agents[c.id].comp.value);
    assert s.sched.agents[c.id].editMsgs == [];
    assert all[..|all|] == all == Log(s, c.id);
  }

  // ------------------------------------------------------------------ soft additions never cut a channel

  ghost predicate AddsOnce(es: seq<Edit>) {
    forall k, l :: 0 <= k < l < |es| && es[k].AddInputArrayElement? ==> !Adds(es[l], es[k].port, es[k].element)
  }

  ghost predicate Uncut(s: Sys) {
    && (forall c :: 0 <= c < |s.channels| ==> s.channels[c].live && s.channels[c].lost == 0)
    && (forall id: Id :: AddsOnce(Log(s, id)))
  }

  lemma {:induction false} DrainCutsNothing(sort: Sort, before: seq<Edit>, es: seq<Edit>)
    requires AddsOnce(before + es)
    ensures Drain(ApplyAll(NewBox(sort), before), es).dropped == []
    decreases |es|
  {
    if es != [] {
      var b, e := ApplyAll(NewBox(sort), before), es[0];
      if e.AddInputArrayElement? {
        ElementsApplied(NewBox(sort), before, e.port, e.element);
        assert (before + es)[|before|] == e;
        assert forall k :: 0 <= k < |before| ==> (before + es)[k] == before[k];
      }
      assert Displaced(b, e) == [];
      ApplyConcat(NewBox(sort), before, [e]);
      assert [e][1..] == [];
      assert before + es == (before + [e]) + es[1..];
      DrainCutsNothing(sort, before + [e], es[1..]);
    }
  }

  lemma AddsOncePrefix(es: seq<Edit>, fs: seq<Edit>)
    requires AddsOnce(es + fs)
    ensures AddsOnce(es)
  {
    forall k, l | 0 <= k < l < |es| && es[k].AddInputArrayElement? ensures !Adds(es[l], es[k].port, es[k].element) {
      assert (es + fs)[k] == es[k] && (es + fs)[l] == es[l];
    }
  }

  lemma {:induction false} RunEndDropsNothing(sort: Sort, deferred: seq<Edit>, all: seq<Edit>, later: seq<Edit>, b: Box)
    requires Applied(sort, deferred, all, b) && AddsOnce(all + later)
    ensures Drain(b, deferred).dropped == []
  {
    var n := |all| - |deferred|;
    assert all == all[..n] + deferred;
    AddsOncePrefix(all, later);
    DrainCutsNothing(sort, all[..n], deferred);
  }

  lemma EditDropsNothing(sort: Sort, all: seq<Edit>, e: Edit, later: seq<Edit>, b: Box)
    requires Applied(sort, [], all, b) && AddsOnce(all + ([e] + later))
    ensures Displaced(b, e) == []
  {
    assert all[..|all|] == all;
    assert all + ([e] + later) == (all + [e]) + later;
    AddsOncePrefix(all + [e], later);
    if e.AddInputArrayElement? {
      ElementsApplied(NewBox(sort), all, e.port, e.element);
      assert (all + [e])[|all|] == e;
      assert forall k :: 0 <= k < |all| ==> (all + [e])[k] == all[k];
    }
  }

  lemma NothingDropped(s: Sys)
    requires Ordered(s) && Wired(s) && OwnershipInv(s) && Refines(s) && Uncut(s) && Enabled(s, Dispatch)
    requires s.mailbox[0] != Halt
    ensures Handle(s.sched, s.mailbox[0]).dropped == []
  {
    var m := s.mailbox[0];
    if m.RunEnd? {
      ReturnDropsNothing(s);
    } else if m.EditAgent? && m.id in s.sched.agents && s.sched.agents[m.id].comp.Some? {
      HomeEditDropsNothing(s);
    }
  }

  lemma HomeEditDropsNothing(s: Sys)
    requires OwnershipInv(s) && Refines(s) && Uncut(s) && s.mailbox != [] && s.mailbox[0].EditAgent?
    requires s.mailbox[0].id in s.sched.agents && s.sched.agents[s.mailbox[0].id].comp.Some?
    ensures Handle(s.sched, s.mailbox[0]).dropped == []
  {
    var m := s.mailbox[0];
    assert AddsOnce(Log(s, m.id));
    assert AppliedAt(s.sched.agents, s.received, s.sorts, m.id, s.sched.agents[m.id].comp.value);
    EditDropsNothing(s.sorts[m.id], s.received[m.id], m.edit, EditsFor(s.mailbox[1..], m.id), s.sched.agents[m.id].comp.value);
  }

  lemma ReturnDropsNothing(s: Sys)
    requires Refines(s) && Uncut(s) && s.mailbox != [] && s.mailbox[0].RunEnd?
    ensures Handle(s.sched, s.mailbox[0]).dropped == []
  {
    var m := s.mailbox[0];
    assert AddsOnce(Log(s, m.id));
    assert AppliedAt(s.sched.agents, s.received, s.sorts, m.id, m.box);
    RunEndDropsNothing(s.sorts[m.id], s.sched.agents[m.id].editMsgs, s.received[m.id], EditsFor(s.mailbox, m.id), m.box);
  }

  lemma DispatchUncut(s: Sys)
    requires Ordered(s) && Wired(s) && OwnershipInv(s) && Refines(s) && Uncut(s) && Enabled(s, Dispatch)
    ensures Uncut(TakeOne(s))
  {
    DispatchKeepsOrder(s);
    forall id: Id ensures AddsOnce(Log(TakeOne(s), id)) {
      DispatchKeepsLog(s, id);
    }
    if s.mailbox[0] != Halt {
      NothingDropped(s);
      TakeOneFacts(s);
    }
  }

  lemma {:induction false} NewElementOnce(c: Exterior.Comp, log: seq<Edit>, port: string, el: string, chan: ChanId)
    requires AddsOnce(log) && SameView(c, ApplyAll(NewBox(c.sort), log).inarr) && !Holds(c, port, el)
    ensures AddsOnce(log + [AddInputArrayElement(port, el, chan)])
  {
    ElementsApplied(NewBox(c.sort), log, port, el);
    assert !((port, el) in ApplyAll(NewBox(c.sort), log).inarr);
  }

  lemma AddedOnceMore(s: Sys, t: Sys, c: Exterior.Comp, port: string, el: string, chan: ChanId, id: Id)
    requires AddsOnce(Log(s, id)) && SameView(c, Settling(s, c).inarr) && !Holds(c, port, el)
    requires t.mailbox == s.mailbox + [EditAgent(c.id, AddInputArrayElement(port, el, chan))] && t.received == s.received
    ensures AddsOnce(Log(t, id))
  {
    PostGrowsLog(s, t, EditAgent(c.id, AddInputArrayElement(port, el, chan)), id);
    if id == c.id {
      NewElementOnce(c, Log(s, id), port, el, chan);
    }
  }

  lemma AddedUncut(s: Sys, t: Sys, c: Exterior.Comp, port: string, el: string, made: Channel)
    requires Uncut(s) && SameView(c, Settling(s, c).inarr) && !Holds(c, port, el)
    requires t.mailbox == s.mailbox + [EditAgent(c.id, AddInputArrayElement(port, el, |s.channels|))] && t.received == s.received
    requires t.channels == s.channels + [made] && made.live && made.lost == 0
    ensures Uncut(t)
  {
    forall id: Id ensures AddsOnce(Log(t, id)) {
      AddedOnceMore(s, t, c, port, el, |s.channels|, id);
    }
  }

  lemma AddElementUncut(s: Sys, n: string, port: string, el: string)
    requires Agrees(s) && Uncut(s) && Exterior.AddInputElement(s.ext, n, port, el, |s.channels|).Ok?
    requires !Exterior.HasElement(s.ext, n, port, el)
    ensures Uncut(AddElementTo(s, n, port, el))
  {
    var c := s.ext.agents[n];
    AddedUncut(s, AddElementTo(s, n, port, el), c, port, el, Open(c.id, true, Lookup(c.sort.inarr, port)));
  }

  lemma PostUncut(s: Sys, t: Sys, m: CompMsg)
    requires Uncut(s) && t.mailbox == s.mailbox + [m] && t.received == s.received
    requires forall c :: 0 <= c < |t.channels| ==> t.channels[c].live && t.channels[c].lost == 0
    requires m.EditAgent? ==> !m.edit.AddInputArrayElement?
    ensures Uncut(t)
  {
    forall id: Id ensures AddsOnce(Log(t, id)) {
      PostGrowsLog(s, t, m, id);
      assert AddsOnce(Log(s, id));
    }
  }

  lemma MoveUncut(s: Sys, step: Step)
    requires Uncut(s) && Enabled(s, step) && (step.Push? || step.Pop?)
    ensures Uncut(Next(s, step))
  {
    forall id: Id ensures AddsOnce(Log(Next(s, step), id)) {
      assert Log(Next(s, step), id) == Log(s, id);
    }
  }

  lemma QuietUncut(s: Sys, step: Step)
    requires Uncut(s) && Ordered(s) && Enabled(s, step)
    requires step.Announce? || step.Finish? || step.AddNode? || step.Connect? || step.StartAgent? || step.Join?
    ensures Uncut(Next(s, step))
  {
    var t := Next(s, step);
    if step.Announce? {
      PostUncut(s, t, s.half[step.actor]);
    } else if step.Finish? {
      PostUncut(s, t, RunEnd(s.jobs[step.job].id, s.jobs[step.job].box, step.res));
    } else {
      var m := OutsideStep(s, step);
      if step.Connect? { ConnectIsNoInput(s, step.call); }
      PostUncut(s, t, m);
    }
  }

  lemma StepUncut(s: Sys, step: Step)
    requires Ordered(s) && Wired(s) && OwnershipInv(s) && Refines(s) && Agrees(s) && Uncut(s) && Enabled(s, step)
    requires !step.AddElement?
    ensures Uncut(Next(s, step))
  {
    if step.Dispatch? {
      DispatchUncut(s);
    } else if step.Push? || step.Pop? {
      MoveUncut(s, step);
    } else if step.SoftAddElement? {
      if !Exterior.HasElement(s.ext, step.comp, step.port, step.element) {
        AddElementUncut(s, step.comp, step.port, step.element);
      }
    } else {
      QuietUncut(s, step);
    }
  }

  /** With every element added once, each receiver ever sent is the one that ends up installed. */
  lemma {:induction false} AddedOnceStays(es: seq<Edit>, k: nat)
    requires AddsOnce(es) && k < |es| && es[k].AddInputArrayElement?
    ensures Newest(es, InElement(es[k].port, es[k].element)) == Some(es[k].recv)
  {
    var x := InElement(es[k].port, es[k].element);
    assert forall l :: k < l < |es| && SlotOf(es[l]) == x ==> Adds(es[l], es[k].port, es[k].element);
    assert LastTo(es, k, x);
    NewestIff(es, x, es[k].recv);
  }
}
