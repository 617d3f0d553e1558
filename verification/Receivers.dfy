// When a receiver is dropped: exactly when a later edit that has been applied puts another one in its place. Only then is
// a channel cut and what it held lost.
module Receivers {
  import opened Wrappers
  import opened Interior
  import opened System
  import opened Ordering
  import opened Wiring
  import opened Ownership
  import opened Edits
  import opened Runs
  import Exterior

  /** The edits that the box of `id` has had, wherever it is: those handed over but for the deferred ones. */
  function Had(s: Sys, id: Id): seq<Edit> {
    if id in s.received && id in s.sched.agents && |s.sched.agents[id].editMsgs| <= |s.received[id]|
    then s.received[id][..|s.received[id]| - |s.sched.agents[id].editMsgs|] else []
  }

  predicate Brings(e: Edit, c: ChanId) {
    e.AddInputArrayElement? && e.recv == c
  }

  /** One of the edits brings receiver `c`, and a later one another to the same element. */
  ghost predicate Replaced(es: seq<Edit>, c: ChanId) {
    exists k, l :: 0 <= k < l < |es| && Brings(es[k], c) && SlotOf(es[l]) == SlotOf(es[k])
  }

  // ------------------------------------------------------------------ sequences of edits

  lemma ReplacedGrows(es: seq<Edit>, fs: seq<Edit>, c: ChanId)
    requires Replaced(es, c)
    ensures Replaced(es + fs, c)
  {
    var k, l :| 0 <= k < l < |es| && Brings(es[k], c) && SlotOf(es[l]) == SlotOf(es[k]);
    assert (es + fs)[k] == es[k] && (es + fs)[l] == es[l];
  }

  lemma NewestReplaced(es: seq<Edit>, e: Edit, c: ChanId)
    requires e.AddInputArrayElement? && Newest(es, SlotOf(e)) == Some(c)
    ensures Replaced(es + [e], c)
  {
    var k := NewestIsLast(es, SlotOf(e));
    assert (es + [e])[k] == es[k] && (es + [e])[|es|] == e;
  }

  lemma ReplacedLast(es: seq<Edit>, e: Edit, c: ChanId)
    requires Replaced(es + [e], c)
    ensures Replaced(es, c) || (e.AddInputArrayElement? && Newest(es, SlotOf(e)) == Some(c))
  {
    var fs := es + [e];
    var k, l :| 0 <= k < l < |fs| && Brings(fs[k], c) && SlotOf(fs[l]) == SlotOf(fs[k]);
    assert es[k] == fs[k];
    if l < |es| {
      assert es[l] == fs[l];
    } else if j :| k < j < |es| && SlotOf(es[j]) == SlotOf(e) {
      assert SlotOf(es[j]) == SlotOf(es[k]);
    } else {
      LastIsNewest(es, k, SlotOf(e));
    }
  }

  lemma DisplacedIff(sort: Sort, before: seq<Edit>, e: Edit, c: ChanId)
    requires EditOk(sort, e)
    ensures Replaced(before + [e], c) <==> Replaced(before, c) || c in Displaced(ApplyAll(NewBox(sort), before), e)
  {
    var b := ApplyAll(NewBox(sort), before);
    ApplyHeld(NewBox(sort), before, SlotOf(e));
    assert c in Displaced(b, e) <==> e.AddInputArrayElement? && InSlot(b, SlotOf(e)) == Some(c);
    if Replaced(before, c) {
      ReplacedGrows(before, [e], c);
    } else if Replaced(before + [e], c) {
      ReplacedLast(before, e, c);
    }
    if e.AddInputArrayElement? && Newest(before, SlotOf(e)) == Some(c) {
      NewestReplaced(before, e, c);
    }
  }

  lemma {:induction false} DrainDrops(sort: Sort, before: seq<Edit>, es: seq<Edit>, c: ChanId)
    requires Drain(ApplyAll(NewBox(sort), before), es).box.Some?
    ensures Replaced(before + es, c) <==> Replaced(before, c) || c in Drain(ApplyAll(NewBox(sort), before), es).dropped
    decreases |es|
  {
    if es == [] {
      assert before + es == before;
    } else {
      var b, e := ApplyAll(NewBox(sort), before), es[0];
      ApplyHeld(NewBox(sort), before, SlotOf(e));
      DisplacedIff(sort, before, e, c);
      ApplyConcat(NewBox(sort), before, [e]);
      assert [e][1..] == [];
      assert ApplyAll(b, [e]) == Install(b, e);
      assert before + es == (before + [e]) + es[1..];
      DrainDrops(sort, before + [e], es[1..], c);
    }
  }

  // ------------------------------------------------------------------ the invariant

  ghost predicate CutAt(s: Sys, c: ChanId)
    requires c < |s.channels|
  {
    !s.channels[c].live <==> exists id: Id :: Replaced(Had(s, id), c)
  }

  ghost predicate Bounded(received: map<Id, seq<Edit>>, n: nat) {
    forall i, k :: i in received && 0 <= k < |received[i]| && received[i][k].AddInputArrayElement? ==> received[i][k].recv < n
  }

  ghost predicate Cut(s: Sys) {
    (forall c :: 0 <= c < |s.channels| ==> CutAt(s, c)) && Bounded(s.received, |s.channels|)
  }

  lemma {:induction false} DropAllLive(cs: seq<Channel>, ids: seq<ChanId>, c: ChanId)
    requires c < |cs|
    ensures DropAll(cs, ids)[c].live <==> cs[c].live && c !in ids
    decreases |ids|
  {
    if ids != [] {
      assert ids == [ids[0]] + ids[1..];
      DropAllLive(if ids[0] < |cs| then cs[ids[0] := Drop(cs[ids[0]])] else cs, ids[1..], c);
    }
  }

  lemma NothingNewHad(s: Sys, t: Sys, c: ChanId)
    requires Cut(s) && t.received == s.received && t.sched.agents == s.sched.agents && c < |t.channels|
    requires |s.channels| <= |t.channels|
    requires t.channels[c].live == if c < |s.channels| then s.channels[c].live else true
    ensures CutAt(t, c)
  {
    assert forall id: Id :: Had(t, id) == Had(s, id);
    if c < |s.channels| {
      assert CutAt(s, c);
    }
  }

  /** Nothing is handed over or applied, and no channel is cut. */
  ghost predicate Quiet(s: Sys, t: Sys) {
    && t.received == s.received && t.sched == s.sched && |s.channels| <= |t.channels|
    && forall c :: 0 <= c < |t.channels| ==> t.channels[c].live == if c < |s.channels| then s.channels[c].live else true
  }

  lemma MoveQuiet(s: Sys, step: Step)
    requires Enabled(s, step) && (step.Push? || step.Pop?)
    ensures Quiet(s, Next(s, step))
  {
  }

  lemma OpenQuiet(s: Sys, step: Step)
    requires Enabled(s, step) && (step.AddElement? || step.SoftAddElement?)
    ensures Quiet(s, Next(s, step))
  {
  }

  lemma NodeQuiet(s: Sys, step: Step)
    requires Enabled(s, step) && step.AddNode?
    ensures Quiet(s, Next(s, step))
  {
  }

  lemma QuietStep(s: Sys, step: Step)
    requires Enabled(s, step) && !step.Dispatch?
    ensures Quiet(s, Next(s, step))
  {
    if step.Push? || step.Pop? {
      MoveQuiet(s, step);
    } else if step.AddNode? {
      NodeQuiet(s, step);
    } else if step.AddElement? || step.SoftAddElement? {
      OpenQuiet(s, step);
    }
  }

  lemma QuietCut(s: Sys, step: Step)
    requires Cut(s) && Enabled(s, step) && !step.Dispatch?
    ensures Cut(Next(s, step))
  {
    var t := Next(s, step);
    QuietStep(s, step);
    forall c | 0 <= c < |t.channels| ensures CutAt(t, c) {
      NothingNewHad(s, t, c);
    }
  }

  /** A handled message adds `more` to what the box of its agent has had, and drops what draining `more` drops. */
  ghost predicate Adds(s: Sys, t: Sys, id: Id, more: seq<Edit>, dropped: seq<ChanId>) {
    && (forall i: Id :: i != id ==> Had(t, i) == Had(s, i))
    && Had(t, id) == Had(s, id) + more
    && (more == [] ==> dropped == [])
    && (more != [] ==>
          id in s.sorts
          && var d := Drain(ApplyAll(NewBox(s.sorts[id]), Had(s, id)), more); d.box.Some? && d.dropped == dropped)
  }

  lemma AddsCut(s: Sys, t: Sys, id: Id, more: seq<Edit>, dropped: seq<ChanId>, c: ChanId)
    requires Cut(s) && Adds(s, t, id, more, dropped) && t.channels == DropAll(s.channels, dropped) && c < |s.channels|
    ensures CutAt(t, c)
  {
    assert CutAt(s, c);
    DropAllLive(s.channels, dropped, c);
    if more != [] {
      DrainDrops(s.sorts[id], Had(s, id), more, c);
    } else {
      assert Had(t, id) == Had(s, id);
    }
    if i: Id :| Replaced(Had(s, i), c) {
      if i == id {
        ReplacedGrows(Had(s, id), more, c);
      }
      assert Replaced(Had(t, i), c);
    }
    if i: Id :| Replaced(Had(t, i), c) {
      assert i != id ==> Replaced(Had(s, i), c);
    }
    if more != [] && c in dropped {
      assert Replaced(Had(t, id), c);
    }
  }

  /** The edits that the message at the head gets applied. */
  function More(s: Sys): seq<Edit>
    requires s.mailbox != []
  {
    var m := s.mailbox[0];
    if m.EditAgent? && m.id in s.sched.agents && s.sched.agents[m.id].comp.Some? then [m.edit]
    else if m.RunEnd? && m.id in s.sched.agents then s.sched.agents[m.id].editMsgs
    else []
  }

  lemma HomeEditAdds(s: Sys)
    requires Wired(s) && OwnershipInv(s) && Refines(s) && s.mailbox != [] && s.mailbox[0].EditAgent?
    requires s.mailbox[0].id in s.sched.agents && s.sched.agents[s.mailbox[0].id].comp.Some?
    ensures var m, b := s.mailbox[0], s.sched.agents[s.mailbox[0].id].comp.value;
      && m.id in s.sorts && b == ApplyAll(NewBox(s.sorts[m.id]), Had(s, m.id)) && EditOk(b.sort, m.edit)
      && Drain(b, [m.edit]).box == EditOne(b, m.edit) && Drain(b, [m.edit]).dropped == Displaced(b, m.edit)
  {
    var m, b := s.mailbox[0], s.sched.agents[s.mailbox[0].id].comp.value;
    HomeHad(s, m.id);
    HomeEditOk(s.sorts, s.channels, s.sched.agents, m);
    DrainOne(b, m.edit);
  }

  lemma HomeHad(s: Sys, id: Id)
    requires Refines(s) && id in s.sched.agents && s.sched.agents[id].comp.Some?
    ensures id in s.sorts && s.sched.agents[id].comp.value == ApplyAll(NewBox(s.sorts[id]), Had(s, id))
  {
    assert AppliedAt(s.sched.agents, s.received, s.sorts, id, s.sched.agents[id].comp.value);
  }

  lemma DrainOne(b: Box, e: Edit)
    requires EditOk(b.sort, e)
    ensures Drain(b, [e]).box == EditOne(b, e) && Drain(b, [e]).dropped == Displaced(b, e)
  {
    assert [e][1..] == [];
  }

  lemma HomeEditOk(sorts: map<Id, Sort>, cs: seq<Channel>, agents: map<Id, CompState>, m: CompMsg)
    requires StatesTyped(sorts, cs, agents) && MsgTyped(sorts, cs, m) && m.EditAgent?
    requires m.id in agents && agents[m.id].comp.Some?
    ensures EditOk(agents[m.id].comp.value.sort, m.edit)
  {
    assert AgentTyped(sorts[m.id], m.id, cs, agents[m.id]);
  }

  lemma ReturnAdds(s: Sys)
    requires Refines(s) && s.mailbox != [] && s.mailbox[0].RunEnd? && s.mailbox[0].id in s.sched.agents
    ensures var m := s.mailbox[0]; var deferred := s.sched.agents[m.id].editMsgs;
      && m.id in s.sorts && m.id in s.received && m.box == ApplyAll(NewBox(s.sorts[m.id]), Had(s, m.id))
      && s.received[m.id] == Had(s, m.id) + deferred
  {
    var m := s.mailbox[0];
    assert AppliedAt(s.sched.agents, s.received, s.sorts, m.id, m.box);
  }

  lemma OthersHad(s: Sys, t: Sys, e: Effect)
    requires s.mailbox != [] && HasId(s.mailbox[0]) && TurnShape(s, t, e)
    ensures forall i: Id :: i != s.mailbox[0].id ==> Had(t, i) == Had(s, i)
  {
    forall i: Id | i != s.mailbox[0].id ensures Had(t, i) == Had(s, i) {
      assert i in t.sched.agents.Keys <==> i in s.sched.agents.Keys;
    }
  }

  lemma CountHad(s: Sys, t: Sys)
    requires s.mailbox != [] && (s.mailbox[0].Inc? || s.mailbox[0].Dec? || s.mailbox[0].Start? || s.mailbox[0].NewAgent?)
    requires t.sched == Handle(s.sched, s.mailbox[0]).st && t.received == Record(s.received, s.mailbox[0])
    requires s.mailbox[0].NewAgent? ==> s.mailbox[0].id !in s.sched.agents
    ensures Had(t, s.mailbox[0].id) == Had(s, s.mailbox[0].id)
  {
  }

  lemma ReturnHad(s: Sys, t: Sys)
    requires Refines(s) && s.mailbox != [] && s.mailbox[0].RunEnd? && s.mailbox[0].id in s.sched.agents
    requires t.sched == Handle(s.sched, s.mailbox[0]).st && t.received == s.received
    requires Drain(s.mailbox[0].box, s.sched.agents[s.mailbox[0].id].editMsgs).box.Some?
    ensures Had(t, s.mailbox[0].id) == Had(s, s.mailbox[0].id) + s.sched.agents[s.mailbox[0].id].editMsgs
  {
    var m := s.mailbox[0];
    ReturnAdds(s);
    RunEndHolds(s.sched, m);
    assert s.received[m.id][..|s.received[m.id]|] == s.received[m.id];
  }

  lemma HomeEditHad(s: Sys, t: Sys)
    requires OwnershipInv(s) && s.mailbox != [] && s.mailbox[0].EditAgent?
    requires s.mailbox[0].id in s.sched.agents && s.mailbox[0].id in s.received
    requires t.sched == Handle(s.sched, s.mailbox[0]).st && t.received == Record(s.received, s.mailbox[0])
    requires var c := s.sched.agents[s.mailbox[0].id]; c.comp.Some? && EditOne(c.comp.value, s.mailbox[0].edit).Some?
    ensures Had(t, s.mailbox[0].id) == Had(s, s.mailbox[0].id) + [s.mailbox[0].edit]
  {
    var m := s.mailbox[0];
    var r := s.received[m.id];
    assert s.sched.agents[m.id].editMsgs == [] == t.sched.agents[m.id].editMsgs;
    assert r[..|r|] == r && (r + [m.edit])[..|r| + 1] == r + [m.edit];
  }

  lemma AwayEditHad(s: Sys, t: Sys)
    requires s.mailbox != [] && s.mailbox[0].EditAgent? && s.mailbox[0].id in s.sched.agents && s.mailbox[0].id in s.received
    requires t.sched == Handle(s.sched, s.mailbox[0]).st && t.received == Record(s.received, s.mailbox[0])
    requires s.sched.agents[s.mailbox[0].id].comp.None?
    ensures Had(t, s.mailbox[0].id) == Had(s, s.mailbox[0].id)
  {
    var m := s.mailbox[0];
    var r, deferred := s.received[m.id], s.sched.agents[m.id].editMsgs;
    if |deferred| <= |r| {
      assert (r + [m.edit])[..|r| - |deferred|] == r[..|r| - |deferred|];
    }
  }

  lemma HeadKnown(s: Sys)
    requires Ordered(s) && Wired(s) && OwnershipInv(s) && Refines(s) && Enabled(s, Dispatch) && HasId(s.mailbox[0])
    ensures var m := s.mailbox[0];
      && (m.NewAgent? <==> m.id !in s.sched.agents)
      && (!m.NewAgent? ==> m.id in s.received)
      && (m.RunEnd? ==> Drain(m.box, s.sched.agents[m.id].editMsgs).box.Some?)
  {
    HeadFacts(s);
  }

  lemma EditHad(s: Sys, t: Sys)
    requires Wired(s) && OwnershipInv(s) && Refines(s) && s.mailbox != [] && s.mailbox[0].EditAgent?
    requires s.mailbox[0].id in s.sched.agents
    requires t.sched == Handle(s.sched, s.mailbox[0]).st && t.received == Record(s.received, s.mailbox[0])
    ensures Had(t, s.mailbox[0].id) == Had(s, s.mailbox[0].id) + More(s)
  {
    if s.sched.agents[s.mailbox[0].id].comp.Some? {
      HomeEditAdds(s);
      HomeEditHad(s, t);
    } else {
      AwayEditHad(s, t);
    }
  }

  /** What the message does to its own agent's edits. */
  lemma OwnHad(s: Sys, t: Sys)
    requires Ordered(s) && Wired(s) && OwnershipInv(s) && Refines(s) && Enabled(s, Dispatch) && HasId(s.mailbox[0])
    requires t.sched == Handle(s.sched, s.mailbox[0]).st && t.received == Record(s.received, s.mailbox[0])
    ensures Had(t, s.mailbox[0].id) == Had(s, s.mailbox[0].id) + More(s)
  {
    var m := s.mailbox[0];
    HeadKnown(s);
    if m.RunEnd? {
      ReturnHad(s, t);
    } else if m.EditAgent? {
      EditHad(s, t);
    } else {
      CountHad(s, t);
    }
  }

  lemma MoreDropped(s: Sys)
    requires Ordered(s) && Wired(s) && OwnershipInv(s) && Refines(s) && Enabled(s, Dispatch) && HasId(s.mailbox[0])
    ensures var m, dropped := s.mailbox[0], Handle(s.sched, s.mailbox[0]).dropped;
      && (More(s) == [] ==> dropped == [])
      && (More(s) != [] ==>
            m.id in s.sorts
            && var d := Drain(ApplyAll(NewBox(s.sorts[m.id]), Had(s, m.id)), More(s)); d.box.Some? && d.dropped == dropped)
  {
    var m := s.mailbox[0];
    HeadKnown(s);
    if m.RunEnd? {
      ReturnAdds(s);
    } else if m.EditAgent? && s.sched.agents[m.id].comp.Some? {
      HomeEditAdds(s);
    }
  }

  lemma HandedBounded(s: Sys, t: Sys)
    requires Wired(s) && Bounded(s.received, |s.channels|) && s.mailbox != []
    requires t.received == Record(s.received, s.mailbox[0]) && |t.channels| == |s.channels|
    ensures Bounded(t.received, |t.channels|)
  {
    assert MsgTyped(s.sorts, s.channels, s.mailbox[0]);
  }

  lemma TurnAdds(s: Sys, t: Sys)
    requires Ordered(s) && Wired(s) && OwnershipInv(s) && Refines(s) && Enabled(s, Dispatch) && HasId(s.mailbox[0])
    requires TurnShape(s, t, Handle(s.sched, s.mailbox[0]))
    ensures Adds(s, t, s.mailbox[0].id, More(s), Handle(s.sched, s.mailbox[0]).dropped)
  {
    OwnHad(s, t);
    MoreDropped(s);
    OthersHad(s, t, Handle(s.sched, s.mailbox[0]));
  }

  lemma TurnCut(s: Sys, t: Sys)
    requires Ordered(s) && Wired(s) && OwnershipInv(s) && Refines(s) && Enabled(s, Dispatch) && HasId(s.mailbox[0])
    requires Cut(s) && TurnShape(s, t, Handle(s.sched, s.mailbox[0]))
    requires t.channels == DropAll(s.channels, Handle(s.sched, s.mailbox[0]).dropped)
    ensures Cut(t)
  {
    var m, dropped := s.mailbox[0], Handle(s.sched, s.mailbox[0]).dropped;
    TurnAdds(s, t);
    HandedBounded(s, t);
    forall c | 0 <= c < |t.channels| ensures CutAt(t, c) {
      AddsCut(s, t, m.id, More(s), dropped, c);
    }
  }

  lemma DispatchCut(s: Sys)
    requires Ordered(s) && Wired(s) && OwnershipInv(s) && Refines(s) && Cut(s) && Enabled(s, Dispatch)
    ensures Cut(TakeOne(s))
  {
    var t := TakeOne(s);
    if HasId(s.mailbox[0]) {
      TurnShapeHolds(s);
      DispatchKeepsOrder(s);
      TakeOneFacts(s);
      TurnCut(s, t);
    } else {
      if s.mailbox[0] == HaltState { TakeOneFacts(s); }
      forall c | 0 <= c < |t.channels| ensures CutAt(t, c) {
        NothingNewHad(s, t, c);
      }
    }
  }

  lemma StepCut(s: Sys, step: Step)
    requires Sound(s) && Cut(s) && Enabled(s, step)
    ensures Cut(Next(s, step))
  {
    if step.Dispatch? {
      DispatchCut(s);
    } else {
      QuietCut(s, step);
    }
  }

  lemma {:induction false} RunCut(s: Sys, steps: seq<Step>)
    requires Sound(s) && Cut(s) && Legal(s, steps)
    ensures Cut(After(s, steps))
    decreases |steps|
  {
    if steps != [] {
      StepSound(s, steps[0]);
      StepCut(s, steps[0]);
      RunCut(Next(s, steps[0]), steps[1..]);
    }
  }

  /** A channel is cut, and what it held lost, exactly when an agent has had an edit that puts another receiver in the
      place of its own. */
  lemma {:induction false} CutIff(steps: seq<Step>, c: ChanId)
    requires Legal(Init, steps) && c < |After(Init, steps).channels|
    ensures var s := After(Init, steps); !s.channels[c].live <==> exists id: Id :: Replaced(Had(s, id), c)
  {
    InitSound();
    RunCut(Init, steps);
    assert CutAt(After(Init, steps), c);
  }
}
