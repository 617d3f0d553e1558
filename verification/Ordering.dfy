// Messages about an agent never overtake its NewAgent: ids are fresh, and whatever refers to an id was
// posted after the NewAgent of that id. So no `expect` of the interior scheduler can fail for lack of an
// agent.
module Ordering {
  import opened Wrappers
  import opened Interior
  import opened System
  import Exterior

  predicate HasId(m: CompMsg) {
    m != Halt && m != HaltState
  }

  predicate Creates(m: CompMsg, id: Id) {
    m.NewAgent? && m.id == id
  }

  ghost predicate KnownAt(agents: map<Id, CompState>, mailbox: seq<CompMsg>, p: nat, id: Id) {
    id in agents || exists q :: 0 <= q < p && q < |mailbox| && Creates(mailbox[q], id)
  }

  ghost predicate FreshNew(agents: map<Id, CompState>, mailbox: seq<CompMsg>, p: nat)
    requires p < |mailbox|
  {
    mailbox[p].NewAgent? ==>
      && mailbox[p].id !in agents
      && forall q :: 0 <= q < |mailbox| && Creates(mailbox[q], mailbox[p].id) ==> q == p
  }

  ghost predicate Ordered(s: Sys) {
    && (forall i :: i in s.sched.agents ==> i < s.ext.nextId)
    && (forall p :: 0 <= p < |s.mailbox| && HasId(s.mailbox[p]) ==> s.mailbox[p].id < s.ext.nextId)
    && (forall p :: 0 <= p < |s.mailbox| ==> FreshNew(s.sched.agents, s.mailbox, p))
    && (forall p :: 0 <= p < |s.mailbox| && HasId(s.mailbox[p]) && !s.mailbox[p].NewAgent? ==>
          KnownAt(s.sched.agents, s.mailbox, p, s.mailbox[p].id))
    && (forall i: Id :: i < s.ext.nextId ==> KnownAt(s.sched.agents, s.mailbox, |s.mailbox|, i))
    && (forall n :: n in s.ext.agents ==> s.ext.agents[n].id < s.ext.nextId)
    && (forall c :: 0 <= c < |s.channels| ==> s.channels[c].owner < s.ext.nextId)
    && (forall a :: a in s.half ==> (s.half[a].Inc? || s.half[a].Dec?) && s.half[a].id < s.ext.nextId)
    && (forall j :: j in s.jobs ==> s.jobs[j].id in s.sched.agents)
  }

  lemma HandleTouchesOneId(st: Sched, m: CompMsg)
    requires m != Halt
    ensures var e := Handle(st, m);
      && (HasId(m) ==> e.st.agents.Keys <= st.agents.Keys + {m.id} && (forall i :: i in st.agents && i != m.id ==> e.st.agents[i] == st.agents[i]))
      && (m == HaltState ==> e.st.agents == st.agents)
      && st.agents.Keys <= e.st.agents.Keys
      && (m.NewAgent? ==> m.id in e.st.agents)
      && (!m.NewAgent? ==> e.st.agents.Keys == st.agents.Keys)
      && (e.posts == [] || e.posts == [Halt])
      && (e.spawned == [] || (|e.spawned| == 1 && HasId(m) && e.spawned[0].id == m.id))
      && (e.spawned != [] ==> m.id in e.st.agents)
      && (HasId(m) && m.id in st.agents ==> e.status != Panicked)
      && (m.NewAgent? || m.HaltState? ==> e.status != Panicked)
  {
  }

  lemma {:induction false} DropAllKeeps(cs: seq<Channel>, ids: seq<ChanId>)
    ensures var r := DropAll(cs, ids);
      forall c :: 0 <= c < |cs| ==> r[c].owner == cs[c].owner && r[c].scheduled == cs[c].scheduled && r[c].schema == cs[c].schema
    decreases |ids|
  {
    if ids != [] {
      DropAllKeeps(if ids[0] < |cs| then cs[ids[0] := Drop(cs[ids[0]])] else cs, ids[1..]);
    }
  }

  lemma AppendKeepsOrder(s: Sys, m: CompMsg, t: Sys)
    requires Ordered(s)
    requires t.mailbox == s.mailbox + [m] && t.sched.agents == s.sched.agents && t.ext.nextId >= s.ext.nextId
    requires HasId(m) ==> m.id < t.ext.nextId
    requires m.NewAgent? ==> m.id == s.ext.nextId
    requires HasId(m) && !m.NewAgent? ==> m.id < s.ext.nextId
    requires t.ext.nextId == if m.NewAgent? then s.ext.nextId + 1 else s.ext.nextId
    requires forall n :: n in t.ext.agents ==> t.ext.agents[n].id < t.ext.nextId
    requires forall c :: 0 <= c < |t.channels| ==> t.channels[c].owner < t.ext.nextId
    requires forall a :: a in t.half ==> a in s.half && t.half[a] == s.half[a]
    requires forall j :: j in t.jobs ==> j in s.jobs && t.jobs[j] == s.jobs[j]
    ensures Ordered(t)
  {
    var A := s.sched.agents;
    forall p | 0 <= p < |t.mailbox| ensures FreshNew(A, t.mailbox, p) {
      if p < |s.mailbox| {
        assert FreshNew(A, s.mailbox, p);
        assert t.mailbox[p] == s.mailbox[p];
      } else if m.NewAgent? {
        forall q | 0 <= q < |t.mailbox| && Creates(t.mailbox[q], m.id) ensures q == p {
          assert q >= |s.mailbox|;
        }
      }
    }
    forall p | 0 <= p < |t.mailbox| && HasId(t.mailbox[p]) && !t.mailbox[p].NewAgent?
      ensures KnownAt(A, t.mailbox, p, t.mailbox[p].id)
    {
      if p < |s.mailbox| {
        assert KnownAt(A, s.mailbox, p, s.mailbox[p].id);
        KnownGrows(A, s.mailbox, m, p, s.mailbox[p].id);
      } else {
        assert KnownAt(A, s.mailbox, |s.mailbox|, m.id);
        KnownGrows(A, s.mailbox, m, p, m.id);
      }
    }
    forall i: Id | i < t.ext.nextId ensures KnownAt(A, t.mailbox, |t.mailbox|, i) {
      if i < s.ext.nextId {
        assert KnownAt(A, s.mailbox, |s.mailbox|, i);
        KnownGrows(A, s.mailbox, m, |s.mailbox|, i);
      } else {
        assert Creates(t.mailbox[|s.mailbox|], i);
      }
    }
  }

  lemma KnownGrows(agents: map<Id, CompState>, mailbox: seq<CompMsg>, m: CompMsg, p: nat, id: Id)
    requires KnownAt(agents, mailbox, p, id)
    ensures KnownAt(agents, mailbox + [m], p, id)
    ensures KnownAt(agents, mailbox + [m], p + 1, id)
  {
    if id !in agents {
      var q :| 0 <= q < p && q < |mailbox| && Creates(mailbox[q], id);
      assert Creates((mailbox + [m])[q], id);
    }
  }

  lemma TakeOneFacts(s: Sys)
    requires s.mailbox != [] && s.mailbox[0] != Halt && Handle(s.sched, s.mailbox[0]).status != Panicked
    ensures var m, e, t := s.mailbox[0], Handle(s.sched, s.mailbox[0]), TakeOne(s);
      && t.sched == e.st
      && t.mailbox == s.mailbox[1..] + e.posts
      && t.jobs == (if e.spawned == [] then s.jobs else s.jobs[s.nextJob := e.spawned[0]])
      && t.nextJob == s.nextJob + |e.spawned| && |e.spawned| <= 1
      && t.channels == DropAll(s.channels, e.dropped)
      && t.half == s.half && t.ext == s.ext && t.extDone == s.extDone && t.halted == s.halted && t.sorts == s.sorts
      && t.panicked == s.panicked
      && t.received == Record(s.received, m)
  {
    HandleTouchesOneId(s.sched, s.mailbox[0]);
    LaunchAtMostOne(s.jobs, s.nextJob, Handle(s.sched, s.mailbox[0]).spawned);
  }

  lemma LaunchAtMostOne(jobs: map<nat, Job>, next: nat, spawned: seq<Job>)
    requires |spawned| <= 1
    ensures Launch(jobs, next, spawned) == if spawned == [] then jobs else jobs[next := spawned[0]]
  {
    if spawned != [] {
      assert spawned[1..] == [];
      assert Launch(jobs[next := spawned[0]], next + 1, []) == jobs[next := spawned[0]];
    }
  }

  lemma OrderAfterTake(s: Sys, t: Sys)
    requires Ordered(s) && s.mailbox != []
    requires t.mailbox == s.mailbox[1..] || t.mailbox == s.mailbox[1..] + [Halt]
    requires t.ext == s.ext && t.half == s.half
    requires |t.channels| == |s.channels|
    requires forall c :: 0 <= c < |t.channels| ==> t.channels[c].owner == s.channels[c].owner
    requires var m := s.mailbox[0];
      && s.sched.agents.Keys <= t.sched.agents.Keys
      && (m.NewAgent? ==> t.sched.agents.Keys == s.sched.agents.Keys + {m.id})
      && (!m.NewAgent? ==> t.sched.agents.Keys == s.sched.agents.Keys)
    requires forall j :: j in t.jobs ==> (j in s.jobs && t.jobs[j] == s.jobs[j]) || t.jobs[j].id in t.sched.agents
    ensures Ordered(t)
  {
    PopKeepsKnown(s, t.sched.agents, t.mailbox);
  }

  lemma DispatchKeepsOrder(s: Sys)
    requires Ordered(s) && Enabled(s, Dispatch)
    ensures Ordered(TakeOne(s))
    ensures s.mailbox[0] != Halt ==> Handle(s.sched, s.mailbox[0]).status != Panicked
  {
    var m := s.mailbox[0];
    if m == Halt {
      OrderAfterTake(s, TakeOne(s));
    } else {
      HandleTouchesOneId(s.sched, m);
      assert HasId(m) && !m.NewAgent? ==> KnownAt(s.sched.agents, s.mailbox, 0, m.id);
      TakeOneFacts(s);
      DropAllKeeps(s.channels, Handle(s.sched, m).dropped);
      OrderAfterTake(s, TakeOne(s));
    }
  }

  lemma PopKeepsKnown(s: Sys, B: map<Id, CompState>, mailbox': seq<CompMsg>)
    requires Ordered(s) && s.mailbox != []
    requires var m := s.mailbox[0];
      && (mailbox' == s.mailbox[1..] || mailbox' == s.mailbox[1..] + [Halt])
      && s.sched.agents.Keys <= B.Keys
      && (m.NewAgent? ==> B.Keys == s.sched.agents.Keys + {m.id})
      && (!m.NewAgent? ==> B.Keys == s.sched.agents.Keys)
    ensures forall p :: 0 <= p < |mailbox'| && HasId(mailbox'[p]) ==> mailbox'[p].id < s.ext.nextId
    ensures forall p :: 0 <= p < |mailbox'| ==> FreshNew(B, mailbox', p)
    ensures forall p :: 0 <= p < |mailbox'| && HasId(mailbox'[p]) && !mailbox'[p].NewAgent? ==> KnownAt(B, mailbox', p, mailbox'[p].id)
    ensures forall i: Id :: i < s.ext.nextId ==> KnownAt(B, mailbox', |mailbox'|, i)
  {
    var A, M := s.sched.agents, s.mailbox;
    var n := |M| - 1;
    assert forall p :: 0 <= p < n ==> mailbox'[p] == M[p + 1];
    forall p | 0 <= p < |mailbox'| ensures FreshNew(B, mailbox', p) {
      if p < n {
        assert FreshNew(A, M, p + 1);
        if mailbox'[p].NewAgent? {
          assert !Creates(M[0], mailbox'[p].id);
          forall q | 0 <= q < |mailbox'| && Creates(mailbox'[q], mailbox'[p].id) ensures q == p {
            assert q < n && Creates(M[q + 1], M[p + 1].id);
          }
        }
      }
    }
    forall p | 0 <= p < |mailbox'| && HasId(mailbox'[p]) && !mailbox'[p].NewAgent?
      ensures KnownAt(B, mailbox', p, mailbox'[p].id)
    {
      KnownShifts(s, B, mailbox', p, mailbox'[p].id);
    }
    forall i: Id | i < s.ext.nextId ensures KnownAt(B, mailbox', |mailbox'|, i) {
      KnownShifts(s, B, mailbox', n, i);
    }
  }

  lemma KnownShifts(s: Sys, B: map<Id, CompState>, mailbox': seq<CompMsg>, p: nat, id: Id)
    requires s.mailbox != [] && p < |s.mailbox| <= |mailbox'| + 1
    requires KnownAt(s.sched.agents, s.mailbox, p + 1, id)
    requires forall q :: 0 <= q < |s.mailbox| - 1 ==> mailbox'[q] == s.mailbox[q + 1]
    requires s.sched.agents.Keys <= B.Keys
    requires s.mailbox[0].NewAgent? ==> s.mailbox[0].id in B
    ensures KnownAt(B, mailbox', p, id)
  {
    if id !in B {
      var q :| 0 <= q < p + 1 && q < |s.mailbox| && Creates(s.mailbox[q], id);
      assert q > 0 && Creates(mailbox'[q - 1], id);
    }
  }

  /** A step of the exterior API that posts one message. */
  predicate PostsFromOutside(s: Sys, step: Step) {
    match step
    case AddNode(_, _) => true
    case AddElement(_, _, _) => true
    case SoftAddElement(n, p, e) => !Exterior.HasElement(s.ext, n, p, e)
    case Connect(_) => true
    case StartAgent(_) => true
    case Join => true
    case _ => false
  }

  /** What one step of a thread outside the scheduler posts. */
  lemma OutsideStep(s: Sys, step: Step) returns (m: CompMsg)
    requires Enabled(s, step)
    requires PostsFromOutside(s, step)
    ensures var t := Next(s, step);
      && t.mailbox == s.mailbox + [m]
      && t.sched == s.sched && t.jobs == s.jobs && t.nextJob == s.nextJob && t.half == s.half
      && t.halted == s.halted && t.panicked == s.panicked && t.received == s.received
      && t.extDone == (s.extDone || step.Join?)
      && !s.extDone
      && (step.AddNode? ==>
            && m == NewAgent(s.ext.nextId, step.name, NewBox(step.sort)) && t.ext.nextId == s.ext.nextId + 1
            && step.name in t.ext.agents && t.ext.agents == s.ext.agents[step.name := t.ext.agents[step.name]]
            && t.ext.agents[step.name].id == s.ext.nextId && t.ext.agents[step.name].inputsArray == map[]
            && t.channels == s.channels + NodeChannels(s.ext.nextId, step.sort)
            && t.sorts == s.sorts[s.ext.nextId := step.sort])
      && (!step.AddNode? ==> t.sorts == s.sorts)
      && (!step.AddNode? ==> t.ext.nextId == s.ext.nextId)
      && (step.AddElement? || step.SoftAddElement? ==>
            && step.comp in s.ext.agents
            && m == EditAgent(s.ext.agents[step.comp].id, AddInputArrayElement(step.port, step.element, |s.channels|))
            && t == AddElementTo(s, step.comp, step.port, step.element))
      && (step.Connect? || step.StartAgent? || step.Join? ==> t.ext == s.ext && t.channels == s.channels)
      && (step.Connect? ==> step.call.compOut in s.ext.agents && m.EditAgent? && m.id == s.ext.agents[step.call.compOut].id
                            && m == ConnectMsg(s.ext, step.call).value)
      && (step.StartAgent? ==> step.name in s.ext.agents && m == Start(s.ext.agents[step.name].id))
      && (step.Join? ==> m == HaltState)
  {
    var t := Next(s, step);
    m := t.mailbox[|s.mailbox|];
  }

  lemma NodeChannelsOwner(id: Id, s: Sort)
    ensures forall c :: 0 <= c < |NodeChannels(id, s)| ==> NodeChannels(id, s)[c].owner == id
  {
  }

  lemma OutsideKeepsOrder(s: Sys, step: Step)
    requires Ordered(s) && Enabled(s, step)
    requires PostsFromOutside(s, step)
    ensures Ordered(Next(s, step))
  {
    var m := OutsideStep(s, step);
    var t := Next(s, step);
    if step.AddNode? {
      NodeChannelsOwner(s.ext.nextId, step.sort);
    }
    AppendKeepsOrder(s, m, t);
  }

  lemma WorkerKeepsOrder(s: Sys, step: Step)
    requires Ordered(s) && Enabled(s, step) && !step.Dispatch? && !PostsFromOutside(s, step)
    ensures Ordered(Next(s, step)) && Next(s, step).panicked == s.panicked
  {
    if step.Announce? {
      AppendKeepsOrder(s, s.half[step.actor], Next(s, step));
    } else if step.Finish? {
      AppendKeepsOrder(s, RunEnd(s.jobs[step.job].id, s.jobs[step.job].box, step.res), Next(s, step));
    }
  }

  lemma StepKeepsOrder(s: Sys, step: Step)
    requires Ordered(s) && Enabled(s, step)
    ensures Ordered(Next(s, step))
    ensures !s.panicked ==> !Next(s, step).panicked
  {
    if step.Dispatch? {
      DispatchKeepsOrder(s);
    } else if PostsFromOutside(s, step) {
      OutsideKeepsOrder(s, step);
    } else {
      WorkerKeepsOrder(s, step);
    }
  }
}
