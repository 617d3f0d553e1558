// Single ownership, exact running count and no lost wake-up, over every run.
module Ownership {
  import opened Counting
  import opened Wrappers
  import opened Interior
  import opened System
  import opened Ordering
  import opened Wiring
  import Exterior

  ghost predicate JobFor(jobs: map<nat, Job>, id: Id) {
    exists j :: j in jobs && jobs[j].id == id
  }

  predicate Returns(m: CompMsg, id: Id) {
    m.RunEnd? && m.id == id
  }

  ghost predicate EndFor(mailbox: seq<CompMsg>, id: Id) {
    exists p :: 0 <= p < |mailbox| && Returns(mailbox[p], id)
  }

  ghost predicate JobsHold(agents: map<Id, CompState>, jobs: map<nat, Job>, nextJob: nat) {
    && (forall j :: j in jobs ==> j < nextJob && jobs[j].id in agents && agents[jobs[j].id].comp.None?)
    && (forall j, k :: j in jobs && k in jobs && jobs[j].id == jobs[k].id ==> j == k)
  }

  ghost predicate EndsHold(agents: map<Id, CompState>, mailbox: seq<CompMsg>, jobs: map<nat, Job>) {
    && (forall p :: 0 <= p < |mailbox| && mailbox[p].RunEnd? ==>
          mailbox[p].id in agents && agents[mailbox[p].id].comp.None? && !JobFor(jobs, mailbox[p].id))
    && (forall p, q :: 0 <= p < q < |mailbox| && mailbox[p].RunEnd? && mailbox[q].RunEnd? ==> mailbox[p].id != mailbox[q].id)
  }

  ghost predicate OutIsHeld(agents: map<Id, CompState>, mailbox: seq<CompMsg>, jobs: map<nat, Job>) {
    forall i :: i in agents && agents[i].comp.None? ==> JobFor(jobs, i) || EndFor(mailbox, i)
  }

  /** A box that is out is held by exactly one job or carried by exactly one RunEnd message. */
  ghost predicate Owned(agents: map<Id, CompState>, mailbox: seq<CompMsg>, jobs: map<nat, Job>, nextJob: nat) {
    JobsHold(agents, jobs, nextJob) && EndsHold(agents, mailbox, jobs) && OutIsHeld(agents, mailbox, jobs)
  }

  /** An agent that is out is counted as running; one that is home has no unread token and no deferred edit. */
  ghost predicate Settled(agents: map<Id, CompState>) {
    forall i :: i in agents ==>
      && (agents[i].comp.None? ==> agents[i].isRun)
      && (agents[i].comp.Some? ==> agents[i].ips <= 0 && agents[i].editMsgs == [])
  }

  function RunningSet(agents: map<Id, CompState>): set<Id> {
    set i | i in agents && agents[i].isRun
  }

  ghost predicate Counted(st: Sched) {
    st.running == |RunningSet(st.agents)|
  }

  ghost predicate OwnershipInv(s: Sys) {
    && Owned(s.sched.agents, s.mailbox, s.jobs, s.nextJob)
    && Settled(s.sched.agents)
    && Counted(s.sched)
  }

  // ------------------------------------------------------------------ what a handler does to one agent

  predicate IsRunning(agents: map<Id, CompState>, id: Id) {
    id in agents && agents[id].isRun
  }

  ghost predicate HandlerFacts(st: Sched, m: CompMsg, e: Effect)
    requires HasId(m) && m.id in e.st.agents
  {
    var id := m.id;
    var was := if id in st.agents then st.agents[id].comp else None;
    var c := e.st.agents[id];
    && (c.comp.Some? ==> c.ips <= 0 && c.editMsgs == [])
    && (c.comp.None? ==> c.isRun)
    && (e.spawned != [] <==> c.comp.None? && (m.RunEnd? || was.Some?))
    && e.st.running == st.running + B(c.isRun) - B(IsRunning(st.agents, id))
    && (m.NewAgent? ==> c.comp.Some?)
    && (e.spawned != [] ==> m.Start? || ((m.Inc? || m.RunEnd?) && c.ips > 0))
    && (!m.RunEnd? && IsRunning(st.agents, id) ==> c.isRun)
    && (id in st.agents && was.None? && !m.RunEnd? ==> c.comp.None?)
    && e.st.canHalt == st.canHalt
    && (e.posts != [] <==> m.RunEnd? && e.spawned == [] && e.st.running <= 0 && st.canHalt)
  }

  lemma HandlerFactsHold(st: Sched, m: CompMsg)
    requires HasId(m) && Settled(st.agents)
    requires m.NewAgent? <==> m.id !in st.agents
    requires m.RunEnd? ==> st.agents[m.id].comp.None? && Drain(m.box, st.agents[m.id].editMsgs).box.Some?
    requires m.EditAgent? && st.agents[m.id].comp.Some? ==> EditOne(st.agents[m.id].comp.value, m.edit).Some?
    ensures m.id in Handle(st, m).st.agents && HandlerFacts(st, m, Handle(st, m))
    ensures var agents := Handle(st, m).st.agents;
      agents.Keys == st.agents.Keys + {m.id} && forall i :: i in st.agents && i != m.id ==> agents[i] == st.agents[i]
  {
    HandleTouchesOneId(st, m);
    if m.id in st.agents {
      var c := st.agents[m.id];
    }
  }

  // ------------------------------------------------------------------ counting

  lemma RemoveOne(r: set<Id>, id: Id)
    ensures |r - {id}| == |r| - B(id in r)
  {
    if id in r {
      assert r == (r - {id}) + {id};
    } else {
      assert r == r - {id};
    }
  }

  lemma CountStep(agents: map<Id, CompState>, agents': map<Id, CompState>, id: Id)
    requires agents'.Keys == agents.Keys + {id}
    requires forall i :: i in agents && i != id ==> agents'[i] == agents[i]
    ensures |RunningSet(agents')| == |RunningSet(agents)| + B(agents'[id].isRun) - B(IsRunning(agents, id))
  {
    var r, r' := RunningSet(agents), RunningSet(agents');
    forall i | i != id ensures i in r <==> i in r' {
      assert i in agents.Keys <==> i in agents'.Keys;
    }
    assert r' - {id} == r - {id};
    RemoveOne(r, id);
    RemoveOne(r', id);
    assert id in agents'.Keys;
  }

  lemma NoneRunning(st: Sched)
    requires Counted(st) && st.running <= 0
    ensures forall i :: i in st.agents ==> !st.agents[i].isRun
  {
    assert RunningSet(st.agents) == {};
    assert forall i :: i in st.agents && st.agents[i].isRun ==> i in RunningSet(st.agents);
  }

  // ------------------------------------------------------------------ ownership through one handled message

  ghost predicate TakeShape(agents: map<Id, CompState>, agents': map<Id, CompState>, m: CompMsg, rest: seq<CompMsg>, mailbox': seq<CompMsg>,
                            jobs: map<nat, Job>, nextJob: nat, spawned: seq<Job>, jobs': map<nat, Job>) {
    && (mailbox' == rest || mailbox' == rest + [Halt])
    && |spawned| <= 1 && jobs' == (if spawned == [] then jobs else jobs[nextJob := spawned[0]])
    && HasId(m) && agents'.Keys == agents.Keys + {m.id}
    && (forall i :: i in agents && i != m.id ==> agents'[i] == agents[i])
    && (m.NewAgent? <==> m.id !in agents)
    && (spawned != [] ==> spawned[0].id == m.id)
    && (var was := if m.id in agents then agents[m.id].comp else None;
        spawned != [] <==> agents'[m.id].comp.None? && (m.RunEnd? || was.Some?))
    && (m.NewAgent? ==> agents'[m.id].comp.Some?)
    && (m.id in agents && agents[m.id].comp.None? && !m.RunEnd? ==> agents'[m.id].comp.None?)
  }

  /** When the box of m.id comes home with m, or was home already, nobody else holds it. */
  lemma NobodyElse(agents: map<Id, CompState>, m: CompMsg, rest: seq<CompMsg>, jobs: map<nat, Job>, nextJob: nat)
    requires Owned(agents, [m] + rest, jobs, nextJob)
    requires HasId(m) && (m.RunEnd? || m.id !in agents || agents[m.id].comp.Some?)
    ensures !JobFor(jobs, m.id)
    ensures forall p :: 0 <= p < |rest| ==> !Returns(rest[p], m.id)
  {
    var M := [m] + rest;
    assert M[0] == m;
    forall p | 0 <= p < |rest| ensures !Returns(rest[p], m.id) {
      assert M[p + 1] == rest[p];
    }
  }

  lemma JobsAfterTake(agents: map<Id, CompState>, agents': map<Id, CompState>, m: CompMsg, rest: seq<CompMsg>, mailbox': seq<CompMsg>,
                      jobs: map<nat, Job>, nextJob: nat, spawned: seq<Job>, jobs': map<nat, Job>)
    requires Owned(agents, [m] + rest, jobs, nextJob)
    requires TakeShape(agents, agents', m, rest, mailbox', jobs, nextJob, spawned, jobs')
    ensures JobsHold(agents', jobs', nextJob + |spawned|)
    ensures forall i :: JobFor(jobs', i) ==> JobFor(jobs, i) || (spawned != [] && i == m.id)
    ensures forall i :: JobFor(jobs, i) ==> JobFor(jobs', i)
    ensures spawned != [] ==> JobFor(jobs', m.id)
  {
    if m.RunEnd? || m.id !in agents || agents[m.id].comp.Some? {
      NobodyElse(agents, m, rest, jobs, nextJob);
    }
    forall i | JobFor(jobs', i) ensures JobFor(jobs, i) || (spawned != [] && i == m.id) {
      var j :| j in jobs' && jobs'[j].id == i;
      assert j in jobs ==> jobs[j].id == i;
    }
    forall i | JobFor(jobs, i) ensures JobFor(jobs', i) {
      var j :| j in jobs && jobs[j].id == i;
      assert j in jobs' && jobs'[j].id == i;
    }
    assert spawned != [] ==> nextJob in jobs' && jobs'[nextJob].id == m.id;
  }

  lemma OwnedAfterTake(agents: map<Id, CompState>, agents': map<Id, CompState>, m: CompMsg, rest: seq<CompMsg>, mailbox': seq<CompMsg>,
                       jobs: map<nat, Job>, nextJob: nat, spawned: seq<Job>, jobs': map<nat, Job>)
    requires Owned(agents, [m] + rest, jobs, nextJob)
    requires TakeShape(agents, agents', m, rest, mailbox', jobs, nextJob, spawned, jobs')
    ensures Owned(agents', mailbox', jobs', nextJob + |spawned|)
  {
    var M := [m] + rest;
    JobsAfterTake(agents, agents', m, rest, mailbox', jobs, nextJob, spawned, jobs');
    if m.RunEnd? || m.id !in agents || agents[m.id].comp.Some? {
      NobodyElse(agents, m, rest, jobs, nextJob);
    }
    forall p | 0 <= p < |mailbox'| && mailbox'[p].RunEnd?
      ensures mailbox'[p].id in agents' && agents'[mailbox'[p].id].comp.None? && !JobFor(jobs', mailbox'[p].id)
    {
      assert M[p + 1] == mailbox'[p];
      assert Returns(mailbox'[p], mailbox'[p].id);
    }
    forall p, q | 0 <= p < q < |mailbox'| && mailbox'[p].RunEnd? && mailbox'[q].RunEnd?
      ensures mailbox'[p].id != mailbox'[q].id
    {
      assert M[p + 1] == mailbox'[p] && M[q + 1] == mailbox'[q];
    }
    forall i | i in agents' && agents'[i].comp.None? ensures JobFor(jobs', i) || EndFor(mailbox', i) {
      if !(i == m.id && spawned != []) && !JobFor(jobs, i) {
        assert i in agents && agents[i].comp.None?;
        var p :| 0 <= p < |M| && Returns(M[p], i);
        assert p > 0 && Returns(mailbox'[p - 1], i);
      }
    }
  }

  /** In a wired, ordered state the head message meets what HandlerFactsHold asks for. */
  lemma HeadFacts(s: Sys)
    requires Ordered(s) && Wired(s) && OwnershipInv(s) && Enabled(s, Dispatch)
    requires HasId(s.mailbox[0])
    ensures var m, e := s.mailbox[0], Handle(s.sched, s.mailbox[0]);
      && m.id in e.st.agents && HandlerFacts(s.sched, m, e)
      && (m.NewAgent? <==> m.id !in s.sched.agents)
      && (m.RunEnd? ==> s.sched.agents[m.id].comp.None? && Drain(m.box, s.sched.agents[m.id].editMsgs).box.Some?)
  {
    var m := s.mailbox[0];
    assert MsgTyped(s.sorts, s.channels, m);
    assert FreshNew(s.sched.agents, s.mailbox, 0);
    assert !m.NewAgent? ==> KnownAt(s.sched.agents, s.mailbox, 0, m.id);
    if m.id in s.sched.agents {
      var c := s.sched.agents[m.id];
      assert AgentTyped(s.sorts[m.id], m.id, s.channels, c);
      if m.RunEnd? {
        DrainTyped(s.sorts[m.id], m.id, s.channels, m.box, c.editMsgs);
      }
    }
    HandlerFactsHold(s.sched, m);
  }

  lemma HeadKeys(s: Sys)
    requires Ordered(s) && Enabled(s, Dispatch) && HasId(s.mailbox[0])
    ensures Handle(s.sched, s.mailbox[0]).st.agents.Keys == s.sched.agents.Keys + {s.mailbox[0].id}
  {
    HandleTouchesOneId(s.sched, s.mailbox[0]);
    assert !s.mailbox[0].NewAgent? ==> KnownAt(s.sched.agents, s.mailbox, 0, s.mailbox[0].id);
  }

  lemma DispatchOwnership(s: Sys)
    requires Ordered(s) && Wired(s) && OwnershipInv(s) && Enabled(s, Dispatch)
    ensures OwnershipInv(TakeOne(s))
  {
    var m, rest := s.mailbox[0], s.mailbox[1..];
    assert s.mailbox == [m] + rest;
    DispatchKeepsOrder(s);
    if m == Halt || m == HaltState {
      if m == HaltState { TakeOneFacts(s); }
      OwnedPops(s.sched.agents, m, rest, TakeOne(s).mailbox, s.jobs, s.nextJob);
    } else {
      HeadFacts(s);
      HeadKeys(s);
      HandleTouchesOneId(s.sched, m);
      TakeOneFacts(s);
      OwnershipAfterTake(s, TakeOne(s), m, rest, Handle(s.sched, m));
    }
  }

  lemma OwnershipAfterTake(s: Sys, t: Sys, m: CompMsg, rest: seq<CompMsg>, e: Effect)
    requires OwnershipInv(s) && s.mailbox == [m] + rest && HasId(m)
    requires m.id in e.st.agents && HandlerFacts(s.sched, m, e) && e.st == t.sched
    requires m.NewAgent? <==> m.id !in s.sched.agents
    requires e.st.agents.Keys == s.sched.agents.Keys + {m.id}
    requires forall i :: i in s.sched.agents && i != m.id ==> e.st.agents[i] == s.sched.agents[i]
    requires e.posts == [] || e.posts == [Halt]
    requires t.mailbox == rest + e.posts
    requires |e.spawned| <= 1 && t.jobs == (if e.spawned == [] then s.jobs else s.jobs[s.nextJob := e.spawned[0]])
    requires e.spawned != [] ==> e.spawned[0].id == m.id
    requires t.nextJob == s.nextJob + |e.spawned|
    ensures OwnershipInv(t)
  {
    CountStep(s.sched.agents, t.sched.agents, m.id);
    assert TakeShape(s.sched.agents, t.sched.agents, m, rest, t.mailbox, s.jobs, s.nextJob, e.spawned, t.jobs);
    OwnedAfterTake(s.sched.agents, t.sched.agents, m, rest, t.mailbox, s.jobs, s.nextJob, e.spawned, t.jobs);
  }

  lemma OwnedPops(agents: map<Id, CompState>, m: CompMsg, rest: seq<CompMsg>, mailbox': seq<CompMsg>, jobs: map<nat, Job>, nextJob: nat)
    requires Owned(agents, [m] + rest, jobs, nextJob) && !m.RunEnd?
    requires mailbox' == rest || mailbox' == rest + [Halt]
    ensures Owned(agents, mailbox', jobs, nextJob)
  {
    var M := [m] + rest;
    assert forall p :: 0 <= p < |rest| ==> mailbox'[p] == M[p + 1];
    forall i | i in agents && agents[i].comp.None? ensures JobFor(jobs, i) || EndFor(mailbox', i) {
      if !JobFor(jobs, i) {
        var p :| 0 <= p < |M| && Returns(M[p], i);
        assert p > 0 && Returns(mailbox'[p - 1], i);
      }
    }
    forall p | 0 <= p < |mailbox'| && mailbox'[p].RunEnd?
      ensures mailbox'[p].id in agents && agents[mailbox'[p].id].comp.None? && !JobFor(jobs, mailbox'[p].id)
    {
      assert M[p + 1].RunEnd?;
    }
    forall p, q | 0 <= p < q < |mailbox'| && mailbox'[p].RunEnd? && mailbox'[q].RunEnd?
      ensures mailbox'[p].id != mailbox'[q].id
    {
      assert M[p + 1] == mailbox'[p] && M[q + 1] == mailbox'[q];
    }
  }

  lemma OwnedPosts(agents: map<Id, CompState>, mailbox: seq<CompMsg>, m: CompMsg, jobs: map<nat, Job>, nextJob: nat)
    requires Owned(agents, mailbox, jobs, nextJob) && !m.RunEnd?
    ensures Owned(agents, mailbox + [m], jobs, nextJob)
  {
    var M := mailbox + [m];
    forall i | i in agents && agents[i].comp.None? ensures JobFor(jobs, i) || EndFor(M, i) {
      if !JobFor(jobs, i) {
        var p :| 0 <= p < |mailbox| && Returns(mailbox[p], i);
        assert Returns(M[p], i);
      }
    }
  }

  lemma FinishOwned(agents: map<Id, CompState>, mailbox: seq<CompMsg>, jobs: map<nat, Job>, nextJob: nat, j: nat, res: RunResult)
    requires Owned(agents, mailbox, jobs, nextJob) && j in jobs
    ensures Owned(agents, mailbox + [RunEnd(jobs[j].id, jobs[j].box, res)], jobs - {j}, nextJob)
  {
    var m := RunEnd(jobs[j].id, jobs[j].box, res);
    var M := mailbox + [m];
    var jobs' := jobs - {j};
    forall i | i in agents && agents[i].comp.None? ensures JobFor(jobs', i) || EndFor(M, i) {
      if i == m.id {
        assert Returns(M[|mailbox|], i);
      } else if JobFor(jobs, i) {
        var k :| k in jobs && jobs[k].id == i;
        assert k in jobs' && jobs'[k].id == i;
      } else {
        var p :| 0 <= p < |mailbox| && Returns(mailbox[p], i);
        assert Returns(M[p], i);
      }
    }
    assert JobFor(jobs, m.id);
  }

  lemma WorkerOwnership(s: Sys, step: Step)
    requires Ordered(s) && OwnershipInv(s) && Enabled(s, step) && !step.Dispatch? && !PostsFromOutside(s, step)
    ensures OwnershipInv(Next(s, step))
  {
    if step.Announce? {
      OwnedPosts(s.sched.agents, s.mailbox, s.half[step.actor], s.jobs, s.nextJob);
    } else if step.Finish? {
      FinishOwned(s.sched.agents, s.mailbox, s.jobs, s.nextJob, step.job, step.res);
    }
  }

  lemma StepKeepsOwnership(s: Sys, step: Step)
    requires Ordered(s) && Wired(s) && OwnershipInv(s) && Enabled(s, step)
    ensures OwnershipInv(Next(s, step))
  {
    if step.Dispatch? {
      DispatchOwnership(s);
    } else if PostsFromOutside(s, step) {
      var m := OutsideStep(s, step);
      OwnedPosts(s.sched.agents, s.mailbox, m, s.jobs, s.nextJob);
    } else {
      WorkerOwnership(s, step);
    }
  }
}
