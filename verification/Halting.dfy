// The stop protocol over every run: a Halt is posted exactly when nothing is left to do, and when the loop
// reaches it nothing is running, nothing else is in the mailbox and every scheduled queue is empty.
module Halting {
  import opened Wrappers
  import opened Interior
  import opened System
  import opened Ordering
  import opened Wiring
  import opened Ownership
  import opened Tokens
  import Exterior

  predicate Tail(mailbox: seq<CompMsg>) {
    mailbox == [] || mailbox == [Halt] || mailbox[|mailbox| - 1] == HaltState || mailbox[|mailbox| - 1].RunEnd?
  }

  ghost predicate Stopping(s: Sys) {
    // HaltState is posted once, last of the exterior messages
    && (forall p :: 0 <= p < |s.mailbox| && s.mailbox[p] == HaltState ==> s.extDone && !s.sched.canHalt)
    && (forall p, q :: 0 <= p < q < |s.mailbox| ==> s.mailbox[p] != HaltState || s.mailbox[q] != HaltState)
    && (s.sched.canHalt ==> s.extDone)
    && (s.extDone && !s.sched.canHalt ==> HaltState in s.mailbox)
    // owed announcements belong to live jobs or to exterior threads before HaltState
    && (forall a :: a in s.half ==> MayAct(s, a))
    // with no job left, whatever is in the mailbox is followed by a RunEnd or by HaltState
    && (s.extDone && s.jobs == map[] ==> Tail(s.mailbox))
    // Halt is posted exactly when stopping was asked for and nothing is running
    && (Halt in s.mailbox ==> s.mailbox == [Halt] && s.sched.canHalt && s.sched.running == 0 && !s.halted)
    && (s.sched.canHalt && s.sched.running <= 0 && !s.halted ==> s.mailbox == [Halt])
    && (s.halted ==> s.mailbox == [] && s.sched.canHalt && s.sched.running == 0)
  }

  ghost predicate Inv(s: Sys) {
    Ordered(s) && Wired(s) && OwnershipInv(s) && Conserved(s) && Stopping(s) && !s.panicked
  }

  /** Nothing counted as running means every box is home: no job, and no RunEnd on its way. */
  lemma AllHome(s: Sys)
    requires OwnershipInv(s) && s.sched.running <= 0
    ensures s.jobs == map[]
    ensures forall p :: 0 <= p < |s.mailbox| ==> !s.mailbox[p].RunEnd?
    ensures forall i :: i in s.sched.agents ==> s.sched.agents[i].comp.Some? && s.sched.agents[i].ips <= 0
  {
    NoneRunning(s.sched);
  }

  lemma HaltTaken(s: Sys)
    requires Stopping(s) && Enabled(s, Dispatch) && s.mailbox[0] == Halt
    ensures Stopping(TakeOne(s))
  {
    assert Halt in s.mailbox;
  }

  lemma HaltStateTaken(s: Sys, t: Sys, posts: seq<CompMsg>)
    requires OwnershipInv(s) && Stopping(s) && Enabled(s, Dispatch) && s.mailbox[0] == HaltState
    requires posts == if s.sched.running <= 0 then [Halt] else []
    requires t.mailbox == s.mailbox[1..] + posts && t.sched == s.sched.(canHalt := true)
    requires t.jobs == s.jobs && t.half == s.half && t.extDone == s.extDone && t.halted == s.halted
    ensures Stopping(t)
  {
    var rest := s.mailbox[1..];
    assert s.mailbox == [HaltState] + rest;
    assert forall p :: 0 <= p < |rest| ==> rest[p] == s.mailbox[p + 1] && rest[p] != HaltState;
    assert rest != [] ==> s.mailbox[|s.mailbox| - 1] == rest[|rest| - 1];
    if s.sched.running <= 0 {
      AllHome(s);
      assert rest == [];
    }
  }

  ghost predicate TakenFacts(s: Sys, t: Sys, e: Effect)
    requires s.mailbox != []
  {
    var m := s.mailbox[0];
    && HasId(m) && m.id in e.st.agents && HandlerFacts(s.sched, m, e)
    && (m.NewAgent? <==> m.id !in s.sched.agents)
    && t.sched == e.st && t.mailbox == s.mailbox[1..] + e.posts && (e.posts == [] || e.posts == [Halt])
    && (forall j :: j in s.jobs ==> j in t.jobs)
    && t.half == s.half && t.extDone == s.extDone && t.halted == s.halted
  }

  lemma RestFacts(s: Sys, t: Sys, e: Effect)
    requires Stopping(s) && Enabled(s, Dispatch) && TakenFacts(s, t, e)
    ensures Halt !in s.mailbox
    ensures forall p :: 0 <= p < |t.mailbox| && t.mailbox[p] == HaltState ==> p + 1 < |s.mailbox| && s.mailbox[p + 1] == HaltState
    ensures HaltState in s.mailbox ==> HaltState in t.mailbox
    ensures s.mailbox[1..] != [] ==> s.mailbox[|s.mailbox| - 1] == t.mailbox[|s.mailbox| - 2]
  {
    assert s.mailbox == [s.mailbox[0]] + s.mailbox[1..];
    if HaltState in s.mailbox {
      var p :| 0 <= p < |s.mailbox| && s.mailbox[p] == HaltState;
      assert p > 0 && t.mailbox[p - 1] == HaltState;
    }
  }

  /** A Halt is posted by RunEnd only into an empty mailbox, and whenever the count reaches zero. */
  lemma HaltPosted(s: Sys, t: Sys, e: Effect)
    requires OwnershipInv(s) && OwnershipInv(t) && Stopping(s) && Enabled(s, Dispatch) && TakenFacts(s, t, e)
    ensures e.posts != [] ==> t.mailbox == [Halt] && t.sched.canHalt && t.sched.running == 0
    ensures t.sched.canHalt && t.sched.running <= 0 ==> e.posts != []
  {
    RestFacts(s, t, e);
    if t.sched.running <= 0 && t.sched.canHalt {
      AllHome(t);
      assert s.sched.running > 0;
      assert s.jobs == map[];
      assert Tail(s.mailbox);
      assert s.mailbox[1..] == [];
    }
  }

  lemma AgentMessageTaken(s: Sys, t: Sys, e: Effect)
    requires Stopping(s) && Enabled(s, Dispatch) && TakenFacts(s, t, e)
    requires e.posts != [] ==> t.mailbox == [Halt] && t.sched.canHalt && t.sched.running == 0
    requires t.sched.canHalt && t.sched.running <= 0 ==> e.posts != []
    ensures Stopping(t)
  {
    RestFacts(s, t, e);
    assert t.extDone && t.jobs == map[] ==> s.jobs == map[];
  }

  lemma DispatchStopping(s: Sys)
    requires Ordered(s) && Wired(s) && OwnershipInv(s) && Stopping(s) && Enabled(s, Dispatch)
    ensures Stopping(TakeOne(s))
  {
    var m := s.mailbox[0];
    if m == Halt {
      HaltTaken(s);
    } else if m == HaltState {
      TakeOneFacts(s);
      HaltStateTaken(s, TakeOne(s), Handle(s.sched, m).posts);
    } else {
      DispatchKeepsOrder(s);
      DispatchOwnership(s);
      HeadFacts(s);
      HandleTouchesOneId(s.sched, m);
      TakeOneFacts(s);
      JobsGrow(s);
      HaltPosted(s, TakeOne(s), Handle(s.sched, m));
      AgentMessageTaken(s, TakeOne(s), Handle(s.sched, m));
    }
  }

  lemma JobsGrow(s: Sys)
    requires Ordered(s) && Enabled(s, Dispatch) && s.mailbox[0] != Halt && Handle(s.sched, s.mailbox[0]).status != Panicked
    ensures forall j :: j in s.jobs ==> j in TakeOne(s).jobs
  {
    TakeOneFacts(s);
  }

  lemma PostStopping(s: Sys, t: Sys, m: CompMsg)
    requires OwnershipInv(s) && Stopping(s)
    requires t.mailbox == s.mailbox + [m] && t.sched == s.sched && t.halted == s.halted && m != Halt
    requires t.extDone == (s.extDone || m == HaltState)
    requires m == HaltState ==> !s.extDone && forall a :: a in s.half ==> a.Worker?
    requires forall j :: j in t.jobs ==> j in s.jobs
    requires forall j :: j in s.jobs && j !in t.jobs ==> m.RunEnd? && Worker(j) !in s.half
    requires forall a :: a in t.half ==> a in s.half
    requires s.jobs != map[] || !s.extDone
    requires t.jobs == map[] && t.extDone ==> m.RunEnd? || m == HaltState
    ensures Stopping(t)
  {
    assert !(s.sched.canHalt && s.sched.running <= 0) by {
      if s.sched.canHalt && s.sched.running <= 0 { AllHome(s); }
    }
    assert t.mailbox[|s.mailbox|] == m;
    assert forall p :: 0 <= p < |s.mailbox| ==> t.mailbox[p] == s.mailbox[p];
    if HaltState in s.mailbox {
      var p :| 0 <= p < |s.mailbox| && s.mailbox[p] == HaltState;
      assert t.mailbox[p] == HaltState;
    }
    assert Halt !in t.mailbox;
    assert m == HaltState ==> t.mailbox[|t.mailbox| - 1] == HaltState;
  }

  lemma MoveStopping(s: Sys, t: Sys, a: Actor)
    requires Stopping(s) && MayAct(s, a)
    requires t == s.(channels := t.channels, half := t.half)
    requires forall b :: b in t.half ==> b in s.half || b == a
    ensures Stopping(t)
  {
  }

  lemma WorkerStopping(s: Sys, step: Step)
    requires Ordered(s) && OwnershipInv(s) && Stopping(s) && Enabled(s, step) && !step.Dispatch? && !PostsFromOutside(s, step)
    ensures Stopping(Next(s, step))
  {
    var t := Next(s, step);
    if step.Push? || step.Pop? {
      MoveStopping(s, t, step.actor);
    } else if step.Announce? {
      PostStopping(s, t, s.half[step.actor]);
    } else if step.Finish? {
      PostStopping(s, t, RunEnd(s.jobs[step.job].id, s.jobs[step.job].box, step.res));
    }
  }

  lemma StepKeepsStopping(s: Sys, step: Step)
    requires Ordered(s) && Wired(s) && OwnershipInv(s) && Stopping(s) && Enabled(s, step)
    ensures Stopping(Next(s, step))
  {
    if step.Dispatch? {
      DispatchStopping(s);
    } else if PostsFromOutside(s, step) {
      OutsideStopping(s, step);
    } else {
      WorkerStopping(s, step);
    }
  }

  lemma OutsideStopping(s: Sys, step: Step)
    requires OwnershipInv(s) && Stopping(s) && Enabled(s, step)
    requires PostsFromOutside(s, step)
    ensures Stopping(Next(s, step))
  {
    var m := OutsideStep(s, step);
    PostStopping(s, Next(s, step), m);
  }
}
