// Deferred edits refine immediate edits, and the exterior view of array inputs agrees with the interior
// one. Both are stated about the log of edits posted to an agent: those its state has been handed, in
// handling order, followed by those still in the mailbox.
module Edits {
  import opened Wrappers
  import opened Interior
  import opened System
  import opened Ordering
  import opened Wiring
  import opened Ownership
  import opened Halting
  import Exterior

  function ApplyAll(b: Box, es: seq<Edit>): Box
    decreases |es|
  {
    if es == [] then b else ApplyAll(Install(b, es[0]), es[1..])
  }

  function EditsFor(mailbox: seq<CompMsg>, id: Id): seq<Edit>
    decreases |mailbox|
  {
    if mailbox == [] then []
    else (if mailbox[0].EditAgent? && mailbox[0].id == id then [mailbox[0].edit] else []) + EditsFor(mailbox[1..], id)
  }

  function Handed(s: Sys, id: Id): seq<Edit> {
    if id in s.received then s.received[id] else []
  }

  /** Every edit ever posted to `id`, oldest first. */
  function Log(s: Sys, id: Id): seq<Edit> {
    Handed(s, id) + EditsFor(s.mailbox, id)
  }

  // ------------------------------------------------------------------ sequences of edits

  lemma {:induction false} ApplyConcat(b: Box, es: seq<Edit>, fs: seq<Edit>)
    ensures ApplyAll(b, es + fs) == ApplyAll(ApplyAll(b, es), fs)
    decreases |es|
  {
    if es == [] {
      assert es + fs == fs;
    } else {
      assert (es + fs)[1..] == es[1..] + fs;
      ApplyConcat(Install(b, es[0]), es[1..], fs);
    }
  }

  /** What the last edit to `x` brings. */
  function Newest(es: seq<Edit>, x: Slot): Option<ChanId>
    decreases |es|
  {
    if es == [] then None
    else if SlotOf(es[|es| - 1]) == x then Some(ChanOf(es[|es| - 1]))
    else Newest(es[..|es| - 1], x)
  }

  predicate LastTo(es: seq<Edit>, k: nat, x: Slot) {
    k < |es| && SlotOf(es[k]) == x && forall l :: k < l < |es| ==> SlotOf(es[l]) != x
  }

  lemma {:induction false} LastIsNewest(es: seq<Edit>, k: nat, x: Slot)
    requires LastTo(es, k, x)
    ensures Newest(es, x) == Some(ChanOf(es[k]))
    decreases |es|
  {
    if k < |es| - 1 {
      assert LastTo(es[..|es| - 1], k, x);
      LastIsNewest(es[..|es| - 1], k, x);
    }
  }

  lemma {:induction false} NewestIsLast(es: seq<Edit>, x: Slot) returns (k: nat)
    requires Newest(es, x).Some?
    ensures LastTo(es, k, x) && Newest(es, x) == Some(ChanOf(es[k]))
    decreases |es|
  {
    k := |es| - 1;
    if SlotOf(es[k]) != x {
      k := NewestIsLast(es[..k], x);
    }
  }

  lemma {:induction false} SomeNewest(es: seq<Edit>, k: nat, x: Slot)
    requires k < |es| && SlotOf(es[k]) == x
    ensures Newest(es, x).Some?
    decreases |es|
  {
    if k < |es| - 1 {
      SomeNewest(es[..|es| - 1], k, x);
    }
  }

  /** Newest is what its name says. */
  lemma NewestIff(es: seq<Edit>, x: Slot, c: ChanId)
    ensures Newest(es, x) == Some(c) <==> exists k: nat :: LastTo(es, k, x) && ChanOf(es[k]) == c
  {
    if Newest(es, x) == Some(c) {
      var k := NewestIsLast(es, x);
      assert LastTo(es, k, x) && ChanOf(es[k]) == c;
    } else {
      forall k: nat | LastTo(es, k, x) ensures ChanOf(es[k]) != c {
        LastIsNewest(es, k, x);
      }
    }
  }

  lemma NoneIff(es: seq<Edit>, x: Slot)
    ensures Newest(es, x) == None <==> forall k :: 0 <= k < |es| ==> SlotOf(es[k]) != x
  {
    if Newest(es, x).Some? {
      var k := NewestIsLast(es, x);
      assert SlotOf(es[k]) == x;
    } else if k :| 0 <= k < |es| && SlotOf(es[k]) == x {
      SomeNewest(es, k, x);
    }
  }

  lemma {:induction false} ApplyHeld(b: Box, es: seq<Edit>, x: Slot)
    ensures ApplyAll(b, es).sort == b.sort
    ensures InSlot(ApplyAll(b, es), x) == if Newest(es, x).Some? then Newest(es, x) else InSlot(b, x)
    decreases |es|
  {
    if es != [] {
      var init, last := es[..|es| - 1], es[|es| - 1];
      assert es == init + [last] && [last][1..] == [];
      ApplyConcat(b, init, [last]);
      assert ApplyAll(ApplyAll(b, init), [last]) == Install(ApplyAll(b, init), last);
      ApplyHeld(b, init, x);
    }
  }

  /** Every place of the box holds what the last of the edits to it brought, and nothing else is held. */
  ghost predicate Reflects(b: Box, sort: Sort, es: seq<Edit>) {
    b.sort == sort && forall x :: InSlot(b, x) == Newest(es, x)
  }

  lemma {:induction false} ApplyReflects(sort: Sort, es: seq<Edit>)
    ensures Reflects(ApplyAll(NewBox(sort), es), sort, es)
  {
    forall x ensures InSlot(ApplyAll(NewBox(sort), es), x) == Newest(es, x) {
      ApplyHeld(NewBox(sort), es, x);
    }
    ApplyHeld(NewBox(sort), es, OutPort(""));
  }

  /** A drain that succeeds leaves at every place what the last edit to it brought, or what was there. */
  lemma {:induction false} DrainInstalls(b: Box, es: seq<Edit>)
    requires Drain(b, es).box.Some?
    ensures Drain(b, es).box.value.sort == b.sort
    ensures forall x :: InSlot(Drain(b, es).box.value, x) == if Newest(es, x).Some? then Newest(es, x) else InSlot(b, x)
  {
    DrainIsApply(b, es);
    forall x ensures InSlot(ApplyAll(b, es), x) == if Newest(es, x).Some? then Newest(es, x) else InSlot(b, x) {
      ApplyHeld(b, es, x);
    }
    ApplyHeld(b, es, OutPort(""));
  }

  lemma {:induction false} DrainIsApply(b: Box, es: seq<Edit>)
    requires Drain(b, es).box.Some?
    ensures Drain(b, es).box.value == ApplyAll(b, es)
    decreases |es|
  {
    if es != [] {
      DrainIsApply(Install(b, es[0]), es[1..]);
    }
  }

  lemma {:induction false} EditsForConcat(ms: seq<CompMsg>, ns: seq<CompMsg>, id: Id)
    ensures EditsFor(ms + ns, id) == EditsFor(ms, id) + EditsFor(ns, id)
    decreases |ms|
  {
    if ms == [] {
      assert ms + ns == ns;
    } else {
      assert (ms + ns)[1..] == ms[1..] + ns;
      EditsForConcat(ms[1..], ns, id);
    }
  }

  lemma {:induction false} NoEditsFor(ms: seq<CompMsg>, id: Id)
    requires forall p :: 0 <= p < |ms| && HasId(ms[p]) ==> ms[p].id != id
    ensures EditsFor(ms, id) == []
    decreases |ms|
  {
    if ms != [] {
      assert forall p :: 0 <= p < |ms[1..]| ==> ms[1..][p] == ms[p + 1];
      NoEditsFor(ms[1..], id);
    }
  }

  predicate Adds(e: Edit, port: string, element: string) {
    e.AddInputArrayElement? && e.port == port && e.element == element
  }

  /** An element is there exactly when it was there before or some edit added it. */
  lemma {:induction false} ElementsApplied(b: Box, es: seq<Edit>, p: string, el: string)
    ensures (p, el) in ApplyAll(b, es).inarr <==> (p, el) in b.inarr || exists k :: 0 <= k < |es| && Adds(es[k], p, el)
    decreases |es|
  {
    if es != [] {
      ElementsApplied(Install(b, es[0]), es[1..], p, el);
      if exists k :: 0 <= k < |es| && Adds(es[k], p, el) {
        var k :| 0 <= k < |es| && Adds(es[k], p, el);
        assert k > 0 ==> Adds(es[1..][k - 1], p, el);
      }
      if exists k :: 0 <= k < |es[1..]| && Adds(es[1..][k], p, el) {
        var k :| 0 <= k < |es[1..]| && Adds(es[1..][k], p, el);
        assert Adds(es[k + 1], p, el);
      }
    }
  }

  // ------------------------------------------------------------------ refinement, one box at a time

  /** Box `b` has had exactly the handed edits `all` except the `deferred` ones at their end, in order. */
  ghost predicate Applied(sort: Sort, deferred: seq<Edit>, all: seq<Edit>, b: Box) {
    && |deferred| <= |all|
    && all[|all| - |deferred|..] == deferred
    && b == ApplyAll(NewBox(sort), all[..|all| - |deferred|])
  }

  lemma AppliedDefer(sort: Sort, deferred: seq<Edit>, all: seq<Edit>, b: Box, e: Edit)
    requires Applied(sort, deferred, all, b)
    ensures Applied(sort, deferred + [e], all + [e], b)
  {
    var n := |all| - |deferred|;
    assert (all + [e])[..n] == all[..n];
    assert (all + [e])[n..] == all[n..] + [e];
  }

  lemma {:induction false} AppliedDrain(sort: Sort, deferred: seq<Edit>, all: seq<Edit>, b: Box)
    requires Applied(sort, deferred, all, b)
    ensures Applied(sort, [], all, ApplyAll(b, deferred))
  {
    var n := |all| - |deferred|;
    ApplyConcat(NewBox(sort), all[..n], deferred);
    assert all == all[..n] + deferred;
    assert all[..|all|] == all;
  }

  lemma AppliedNow(sort: Sort, all: seq<Edit>, b: Box, e: Edit)
    requires Applied(sort, [], all, b)
    ensures Applied(sort, [], all + [e], Install(b, e))
  {
    assert all[..|all|] == all && (all + [e])[..|all| + 1] == all + [e];
    ApplyConcat(NewBox(sort), all, [e]);
    assert [e][1..] == [];
    assert ApplyAll(b, [e]) == Install(b, e);
  }

  ghost predicate AppliedAt(agents: map<Id, CompState>, received: map<Id, seq<Edit>>, sorts: map<Id, Sort>, i: Id, b: Box) {
    i in agents && i in received && i in sorts && Applied(sorts[i], agents[i].editMsgs, received[i], b)
  }

  ghost predicate Refines(s: Sys) {
    var A, R, S := s.sched.agents, s.received, s.sorts;
    && R.Keys == A.Keys
    && (forall i :: i in A && A[i].comp.Some? ==> AppliedAt(A, R, S, i, A[i].comp.value))
    && (forall j :: j in s.jobs ==> AppliedAt(A, R, S, s.jobs[j].id, s.jobs[j].box))
    && (forall p :: 0 <= p < |s.mailbox| && s.mailbox[p].RunEnd? ==> AppliedAt(A, R, S, s.mailbox[p].id, s.mailbox[p].box))
    && (forall p :: 0 <= p < |s.mailbox| && s.mailbox[p].NewAgent? ==>
          s.mailbox[p].id in S && s.mailbox[p].box == NewBox(S[s.mailbox[p].id]))
  }

  // ------------------------------------------------------------------ what one handled message does

  /** A box that stays out: an edit is deferred, anything else leaves the deferred edits alone. */
  lemma AwayStep(st: Sched, received: map<Id, seq<Edit>>, sorts: map<Id, Sort>, m: CompMsg, b: Box)
    requires HasId(m) && m.id in st.agents && st.agents[m.id].comp.None? && !m.RunEnd? && !m.NewAgent?
    requires AppliedAt(st.agents, received, sorts, m.id, b)
    ensures AppliedAt(Handle(st, m).st.agents, Record(received, m), sorts, m.id, b)
  {
    if m.EditAgent? {
      AppliedDefer(sorts[m.id], st.agents[m.id].editMsgs, received[m.id], b, m.edit);
    }
  }

  /** The box held by m.id's state, or by the job it spawns, after m was handled. */
  function HeldBy(e: Effect, id: Id): Option<Box>
    requires id in e.st.agents
  {
    if e.st.agents[id].comp.Some? then e.st.agents[id].comp
    else if e.spawned != [] then Some(e.spawned[0].box)
    else None
  }

  lemma HomeStep(st: Sched, received: map<Id, seq<Edit>>, sorts: map<Id, Sort>, m: CompMsg)
    requires HasId(m) && m.id in st.agents && st.agents[m.id].comp.Some? && !m.RunEnd? && !m.NewAgent?
    requires st.agents[m.id].editMsgs == []
    requires AppliedAt(st.agents, received, sorts, m.id, st.agents[m.id].comp.value)
    requires m.EditAgent? ==> EditOne(st.agents[m.id].comp.value, m.edit).Some?
    ensures var e := Handle(st, m);
      m.id in e.st.agents && HeldBy(e, m.id).Some? && AppliedAt(e.st.agents, Record(received, m), sorts, m.id, HeldBy(e, m.id).value)
  {
    if m.EditAgent? {
      AppliedNow(sorts[m.id], received[m.id], st.agents[m.id].comp.value, m.edit);
    }
  }

  lemma RunEndHolds(st: Sched, m: CompMsg)
    requires m.RunEnd? && m.id in st.agents && Drain(m.box, st.agents[m.id].editMsgs).box.Some?
    ensures var e := Handle(st, m);
      && m.id in e.st.agents && e.st.agents[m.id].editMsgs == []
      && HeldBy(e, m.id) == Some(ApplyAll(m.box, st.agents[m.id].editMsgs))
  {
    DrainIsApply(m.box, st.agents[m.id].editMsgs);
  }

  lemma EndStep(st: Sched, received: map<Id, seq<Edit>>, sorts: map<Id, Sort>, m: CompMsg)
    requires m.RunEnd? && m.id in st.agents
    requires Drain(m.box, st.agents[m.id].editMsgs).box.Some?
    requires AppliedAt(st.agents, received, sorts, m.id, m.box)
    ensures var e := Handle(st, m);
      m.id in e.st.agents && HeldBy(e, m.id).Some? && AppliedAt(e.st.agents, Record(received, m), sorts, m.id, HeldBy(e, m.id).value)
  {
    RunEndHolds(st, m);
    AppliedDrain(sorts[m.id], st.agents[m.id].editMsgs, received[m.id], m.box);
  }

  /** Whatever box m brings or finds home is, afterwards, held with every handed edit applied or deferred. */
  lemma HeldStep(s: Sys)
    requires Ordered(s) && Wired(s) && OwnershipInv(s) && Refines(s) && Enabled(s, Dispatch) && HasId(s.mailbox[0])
    requires var m := s.mailbox[0]; m.RunEnd? || m.id !in s.sched.agents || s.sched.agents[m.id].comp.Some?
    ensures var m, e := s.mailbox[0], Handle(s.sched, s.mailbox[0]);
      && m.id in e.st.agents && HeldBy(e, m.id).Some?
      && AppliedAt(e.st.agents, Record(s.received, m), s.sorts, m.id, HeldBy(e, m.id).value)
  {
    var m := s.mailbox[0];
    HeadFacts(s);
    if m.RunEnd? {
      EndStep(s.sched, s.received, s.sorts, m);
    } else if m.id in s.sched.agents {
      assert MsgTyped(s.sorts, s.channels, m);
      assert AgentTyped(s.sorts[m.id], m.id, s.channels, s.sched.agents[m.id]);
      HomeStep(s.sched, s.received, s.sorts, m);
    }
  }

  /** A new run starts from a box to which every edit handled so far has been applied. */
  lemma RunStartsUpToDate(s: Sys)
    requires Ordered(s) && Wired(s) && OwnershipInv(s) && Refines(s) && Enabled(s, Dispatch) && HasId(s.mailbox[0])
    ensures var m, e, t := s.mailbox[0], Handle(s.sched, s.mailbox[0]), TakeOne(s);
      e.spawned != [] ==> m.id in t.received && m.id in s.sorts && e.spawned[0] == Job(m.id, ApplyAll(NewBox(s.sorts[m.id]), t.received[m.id]))
  {
    var m, e := s.mailbox[0], Handle(s.sched, s.mailbox[0]);
    if e.spawned != [] {
      DispatchKeepsOrder(s);
      TakeOneFacts(s);
      HeldStep(s);
      SpawnedIdle(s, m);
      SpawnedApplied(e, m.id, Record(s.received, m), s.sorts);
    }
  }

  lemma SpawnedApplied(e: Effect, id: Id, received: map<Id, seq<Edit>>, sorts: map<Id, Sort>)
    requires id in e.st.agents && e.st.agents[id].comp.None? && e.st.agents[id].editMsgs == []
    requires |e.spawned| == 1 && e.spawned[0].id == id
    requires AppliedAt(e.st.agents, received, sorts, id, e.spawned[0].box)
    ensures e.spawned[0] == Job(id, ApplyAll(NewBox(sorts[id]), received[id]))
  {
    assert received[id][..|received[id]|] == received[id];
  }

  lemma SpawnedIdle(s: Sys, m: CompMsg)
    requires HasId(m) && m.id in Handle(s.sched, m).st.agents && Settled(s.sched.agents)
    requires Handle(s.sched, m).spawned != []
    ensures var e := Handle(s.sched, m);
      && e.st.agents[m.id].editMsgs == [] && e.st.agents[m.id].comp.None? && |e.spawned| == 1 && e.spawned[0].id == m.id
  {
  }

  /** The shape of a turn of the loop on a message about an agent. */
  ghost predicate TurnShape(s: Sys, t: Sys, e: Effect)
    requires s.mailbox != [] && HasId(s.mailbox[0])
  {
    var m := s.mailbox[0];
    && t.sched == e.st && t.mailbox == s.mailbox[1..] + e.posts && (e.posts == [] || e.posts == [Halt])
    && t.sched.agents.Keys == s.sched.agents.Keys + {m.id}
    && t.received == Record(s.received, m) && t.sorts == s.sorts
    && (m.NewAgent? <==> m.id !in s.sched.agents)
    && |e.spawned| <= 1 && t.jobs == (if e.spawned == [] then s.jobs else s.jobs[s.nextJob := e.spawned[0]])
    && (forall i :: i in s.sched.agents && i != m.id ==> t.sched.agents[i] == s.sched.agents[i])
  }

  /** m.id's box was not out, or comes back with m. */
  predicate Returned(s: Sys)
    requires s.mailbox != [] && HasId(s.mailbox[0])
  {
    var m := s.mailbox[0];
    m.RunEnd? || m.id !in s.sched.agents || s.sched.agents[m.id].comp.Some?
  }

  ghost predicate HeadRefined(s: Sys, t: Sys, e: Effect)
    requires s.mailbox != [] && HasId(s.mailbox[0]) && t.sched == e.st && s.mailbox[0].id in t.sched.agents
  {
    var id := s.mailbox[0].id;
    && (Returned(s) ==>
          && (e.spawned != [] ==> e.spawned[0].id == id && t.sched.agents[id].comp.None?)
          && HeldBy(e, id).Some? && AppliedAt(t.sched.agents, t.received, t.sorts, id, HeldBy(e, id).value))
    && (!Returned(s) ==>
          && t.sched.agents[id].comp.None? && e.spawned == []
          && forall b :: AppliedAt(s.sched.agents, s.received, s.sorts, id, b) ==> AppliedAt(t.sched.agents, t.received, t.sorts, id, b))
  }

  /** Boxes of the other agents, and a box of m.id that stays out, keep their edits. */
  ghost predicate OthersRefined(s: Sys, t: Sys)
    requires s.mailbox != [] && HasId(s.mailbox[0])
  {
    forall i, b :: AppliedAt(s.sched.agents, s.received, s.sorts, i, b) && (i != s.mailbox[0].id || !Returned(s)) ==>
      AppliedAt(t.sched.agents, t.received, t.sorts, i, b)
  }

  /** Every box, at home, in the pool or on its way back, is paired with its agent in `good`. */
  ghost predicate Held(agents: map<Id, CompState>, jobs: map<nat, Job>, mailbox: seq<CompMsg>, good: iset<(Id, Box)>) {
    && (forall i :: i in agents && agents[i].comp.Some? ==> (i, agents[i].comp.value) in good)
    && (forall j :: j in jobs ==> (jobs[j].id, jobs[j].box) in good)
    && (forall p :: 0 <= p < |mailbox| && mailbox[p].RunEnd? ==> (mailbox[p].id, mailbox[p].box) in good)
  }

  ghost function AllApplied(agents: map<Id, CompState>, received: map<Id, seq<Edit>>, sorts: map<Id, Sort>): iset<(Id, Box)> {
    iset i: Id, b: Box | AppliedAt(agents, received, sorts, i, b) :: (i, b)
  }

  /** Whatever property `good` and `good'` of boxes stand for: a turn that keeps it for the boxes it does not touch, and
      has it for the box it does, keeps it for all. */
  lemma HeldTaken(s: Sys, t: Sys, e: Effect, good: iset<(Id, Box)>, good': iset<(Id, Box)>)
    requires s.mailbox != [] && HasId(s.mailbox[0]) && TurnShape(s, t, e)
    requires Held(s.sched.agents, s.jobs, s.mailbox, good)
    requires forall i, b :: (i, b) in good && (i != s.mailbox[0].id || !Returned(s)) ==> (i, b) in good'
    requires Returned(s) ==> HeldBy(e, s.mailbox[0].id).Some? && (s.mailbox[0].id, HeldBy(e, s.mailbox[0].id).value) in good'
    requires Returned(s) && e.spawned != [] ==> e.spawned[0].id == s.mailbox[0].id && t.sched.agents[s.mailbox[0].id].comp.None?
    requires !Returned(s) ==> t.sched.agents[s.mailbox[0].id].comp.None? && e.spawned == []
    requires Returned(s) ==> !JobFor(s.jobs, s.mailbox[0].id)
    requires Returned(s) ==> forall p :: 0 <= p < |s.mailbox[1..]| ==> !Returns(s.mailbox[1..][p], s.mailbox[0].id)
    ensures Held(t.sched.agents, t.jobs, t.mailbox, good')
  {
    forall j | j in t.jobs ensures (t.jobs[j].id, t.jobs[j].box) in good' {
      if j in s.jobs && t.jobs[j] == s.jobs[j] {
        assert JobFor(s.jobs, s.jobs[j].id);
      }
    }
    forall p | 0 <= p < |t.mailbox| && t.mailbox[p].RunEnd? ensures (t.mailbox[p].id, t.mailbox[p].box) in good' {
      assert t.mailbox[p] == s.mailbox[p + 1] == s.mailbox[1..][p];
      assert Returns(s.mailbox[1..][p], t.mailbox[p].id);
    }
  }

  lemma NewAgentsTaken(s: Sys, t: Sys, e: Effect)
    requires s.mailbox != [] && HasId(s.mailbox[0]) && TurnShape(s, t, e)
    requires forall p :: 0 <= p < |s.mailbox| && s.mailbox[p].NewAgent? ==>
      s.mailbox[p].id in s.sorts && s.mailbox[p].box == NewBox(s.sorts[s.mailbox[p].id])
    ensures forall p :: 0 <= p < |t.mailbox| && t.mailbox[p].NewAgent? ==>
      t.mailbox[p].id in t.sorts && t.mailbox[p].box == NewBox(t.sorts[t.mailbox[p].id])
  {
    assert forall p :: 0 <= p < |t.mailbox| && t.mailbox[p].NewAgent? ==> t.mailbox[p] == s.mailbox[p + 1];
  }

  lemma HolderGone(s: Sys)
    requires OwnershipInv(s) && s.mailbox != [] && HasId(s.mailbox[0]) && Returned(s)
    ensures !JobFor(s.jobs, s.mailbox[0].id)
    ensures forall p :: 0 <= p < |s.mailbox[1..]| ==> !Returns(s.mailbox[1..][p], s.mailbox[0].id)
  {
    assert s.mailbox == [s.mailbox[0]] + s.mailbox[1..];
    NobodyElse(s.sched.agents, s.mailbox[0], s.mailbox[1..], s.jobs, s.nextJob);
  }

  lemma RefinesIsHeld(s: Sys)
    requires Refines(s)
    ensures Held(s.sched.agents, s.jobs, s.mailbox, AllApplied(s.sched.agents, s.received, s.sorts))
  {
  }

  lemma HeldIsRefines(s: Sys)
    requires Held(s.sched.agents, s.jobs, s.mailbox, AllApplied(s.sched.agents, s.received, s.sorts))
    requires s.received.Keys == s.sched.agents.Keys
    requires forall p :: 0 <= p < |s.mailbox| && s.mailbox[p].NewAgent? ==>
      s.mailbox[p].id in s.sorts && s.mailbox[p].box == NewBox(s.sorts[s.mailbox[p].id])
    ensures Refines(s)
  {
  }

  lemma RefineTaken(s: Sys, t: Sys, e: Effect)
    requires Refines(s) && s.mailbox != [] && HasId(s.mailbox[0])
    requires TurnShape(s, t, e) && t.received.Keys == t.sched.agents.Keys
    requires HeadRefined(s, t, e) && OthersRefined(s, t)
    requires Returned(s) ==> !JobFor(s.jobs, s.mailbox[0].id)
    requires Returned(s) ==> forall p :: 0 <= p < |s.mailbox[1..]| ==> !Returns(s.mailbox[1..][p], s.mailbox[0].id)
    ensures Refines(t)
  {
    RefinesIsHeld(s);
    HeldTaken(s, t, e, AllApplied(s.sched.agents, s.received, s.sorts), AllApplied(t.sched.agents, t.received, t.sorts));
    NewAgentsTaken(s, t, e);
    HeldIsRefines(t);
  }

  lemma HeadRefinedHolds(s: Sys)
    requires Ordered(s) && Wired(s) && OwnershipInv(s) && Refines(s) && Enabled(s, Dispatch) && HasId(s.mailbox[0])
    ensures var t, e := TakeOne(s), Handle(s.sched, s.mailbox[0]);
      t.sched == e.st && s.mailbox[0].id in t.sched.agents && HeadRefined(s, t, e)
  {
    var m := s.mailbox[0];
    DispatchKeepsOrder(s);
    HeadFacts(s);
    HandleTouchesOneId(s.sched, m);
    TakeOneFacts(s);
    if Returned(s) {
      HeldStep(s);
    } else {
      forall b | AppliedAt(s.sched.agents, s.received, s.sorts, m.id, b)
        ensures AppliedAt(Handle(s.sched, m).st.agents, Record(s.received, m), s.sorts, m.id, b)
      {
        AwayStep(s.sched, s.received, s.sorts, m, b);
      }
    }
  }

  lemma OthersRefinedHolds(s: Sys, t: Sys, e: Effect)
    requires s.mailbox != [] && HasId(s.mailbox[0]) && t.sched == e.st && s.mailbox[0].id in t.sched.agents
    requires HeadRefined(s, t, e) && t.sorts == s.sorts && t.received == Record(s.received, s.mailbox[0])
    requires forall i :: i in s.sched.agents && i != s.mailbox[0].id ==> i in t.sched.agents && t.sched.agents[i] == s.sched.agents[i]
    ensures OthersRefined(s, t)
  {
    RecordKeys(s.received, s.mailbox[0]);
  }

  lemma TurnShapeHolds(s: Sys)
    requires Ordered(s) && Wired(s) && OwnershipInv(s) && Enabled(s, Dispatch) && HasId(s.mailbox[0])
    ensures TurnShape(s, TakeOne(s), Handle(s.sched, s.mailbox[0]))
  {
    DispatchKeepsOrder(s);
    HeadFacts(s);
    HeadKeys(s);
    HandleTouchesOneId(s.sched, s.mailbox[0]);
    TakeOneFacts(s);
  }

  lemma TurnRefines(s: Sys, t: Sys, e: Effect)
    requires Refines(s) && s.mailbox != [] && HasId(s.mailbox[0])
    requires TurnShape(s, t, e) && HeadRefined(s, t, e)
    requires Returned(s) ==> !JobFor(s.jobs, s.mailbox[0].id)
    requires Returned(s) ==> forall p :: 0 <= p < |s.mailbox[1..]| ==> !Returns(s.mailbox[1..][p], s.mailbox[0].id)
    ensures Refines(t)
  {
    RecordKeys(s.received, s.mailbox[0]);
    OthersRefinedHolds(s, t, e);
    RefineTaken(s, t, e);
  }

  /** Where each message of the new mailbox comes from. */
  ghost predicate MailFrame(s: Sys, t: Sys) {
    forall p :: 0 <= p < |t.mailbox| ==>
      t.mailbox[p] in s.mailbox || (!t.mailbox[p].RunEnd? && !t.mailbox[p].NewAgent?)
      || (t.mailbox[p].RunEnd? && exists j :: j in s.jobs && s.jobs[j] == Job(t.mailbox[p].id, t.mailbox[p].box))
      || (t.mailbox[p].NewAgent? && t.mailbox[p].id in t.sorts && t.mailbox[p].box == NewBox(t.sorts[t.mailbox[p].id]))
  }

  lemma SortsGrow(agents: map<Id, CompState>, received: map<Id, seq<Edit>>, sorts: map<Id, Sort>, sorts': map<Id, Sort>)
    requires forall i :: i in sorts ==> i in sorts' && sorts'[i] == sorts[i]
    ensures AllApplied(agents, received, sorts) <= AllApplied(agents, received, sorts')
  {
  }

  lemma HeldFrame(s: Sys, t: Sys, good: iset<(Id, Box)>, good': iset<(Id, Box)>)
    requires Held(s.sched.agents, s.jobs, s.mailbox, good) && good <= good'
    requires t.sched.agents == s.sched.agents && MailFrame(s, t)
    requires forall j :: j in t.jobs ==> j in s.jobs && t.jobs[j] == s.jobs[j]
    ensures Held(t.sched.agents, t.jobs, t.mailbox, good')
  {
  }

  lemma NewAgentsFrame(s: Sys, t: Sys)
    requires MailFrame(s, t)
    requires forall i :: i in s.sorts ==> i in t.sorts && t.sorts[i] == s.sorts[i]
    requires forall p :: 0 <= p < |s.mailbox| && s.mailbox[p].NewAgent? ==>
      s.mailbox[p].id in s.sorts && s.mailbox[p].box == NewBox(s.sorts[s.mailbox[p].id])
    ensures forall p :: 0 <= p < |t.mailbox| && t.mailbox[p].NewAgent? ==>
      t.mailbox[p].id in t.sorts && t.mailbox[p].box == NewBox(t.sorts[t.mailbox[p].id])
  {
  }

  /** A step that leaves the agents alone: mailbox grows by m, jobs do not change or one returns in m. */
  lemma RefinesFrame(s: Sys, t: Sys)
    requires Refines(s)
    requires t.sched.agents == s.sched.agents && t.received == s.received
    requires forall i :: i in s.sorts ==> i in t.sorts && t.sorts[i] == s.sorts[i]
    requires forall j :: j in t.jobs ==> j in s.jobs && t.jobs[j] == s.jobs[j]
    requires MailFrame(s, t)
    ensures Refines(t)
  {
    var good, good' := AllApplied(s.sched.agents, s.received, s.sorts), AllApplied(t.sched.agents, t.received, t.sorts);
    RefinesIsHeld(s);
    SortsGrow(s.sched.agents, s.received, s.sorts, t.sorts);
    HeldFrame(s, t, good, good');
    NewAgentsFrame(s, t);
    HeldIsRefines(t);
  }

  lemma StopRefines(s: Sys)
    requires Refines(s) && Enabled(s, Dispatch) && !HasId(s.mailbox[0])
    ensures Refines(TakeOne(s))
  {
    if s.mailbox[0] == HaltState { TakeOneFacts(s); }
    RefinesFrame(s, TakeOne(s));
  }

  lemma DispatchRefines(s: Sys)
    requires Ordered(s) && Wired(s) && OwnershipInv(s) && Refines(s) && Enabled(s, Dispatch)
    ensures Refines(TakeOne(s))
  {
    if HasId(s.mailbox[0]) {
      TurnShapeHolds(s);
      HeadRefinedHolds(s);
      if Returned(s) {
        HolderGone(s);
      }
      TurnRefines(s, TakeOne(s), Handle(s.sched, s.mailbox[0]));
    } else {
      StopRefines(s);
    }
  }

  lemma RecordKeys(received: map<Id, seq<Edit>>, m: CompMsg)
    requires HasId(m)
    ensures Record(received, m).Keys == received.Keys + (if m.NewAgent? then {m.id} else {})
    ensures forall i :: i in received && i != m.id ==> Record(received, m)[i] == received[i]
  {
  }

  lemma WorkerRefines(s: Sys, step: Step)
    requires Ordered(s) && Refines(s) && Enabled(s, step) && !step.Dispatch? && !PostsFromOutside(s, step)
    ensures Refines(Next(s, step))
  {
    var t := Next(s, step);
    if step.Finish? {
      assert t.mailbox[|s.mailbox|] == RunEnd(s.jobs[step.job].id, s.jobs[step.job].box, step.res);
    }
    RefinesFrame(s, t);
  }

  lemma StepRefines(s: Sys, step: Step)
    requires Ordered(s) && Wired(s) && OwnershipInv(s) && Refines(s) && Enabled(s, step)
    ensures Refines(Next(s, step))
  {
    if step.Dispatch? {
      DispatchRefines(s);
    } else if PostsFromOutside(s, step) {
      OutsideRefines(s, step);
    } else {
      WorkerRefines(s, step);
    }
  }

  lemma OutsideRefines(s: Sys, step: Step)
    requires Ordered(s) && Refines(s) && Wired(s) && Enabled(s, step)
    requires PostsFromOutside(s, step)
    ensures Refines(Next(s, step))
  {
    var t := Next(s, step);
    var m := OutsideStep(s, step);
    PostedFrame(s, t, m);
    RefinesFrame(s, t);
  }

  lemma PostedFrame(s: Sys, t: Sys, m: CompMsg)
    requires t.mailbox == s.mailbox + [m] && !m.RunEnd?
    requires m.NewAgent? ==> m.id in t.sorts && m.box == NewBox(t.sorts[m.id])
    ensures MailFrame(s, t)
  {
  }
}
