// The main results about the Rust scheduler, for every legal run from the empty scheduler.
module Runs {
  import opened Wrappers
  import opened Interior
  import opened System
  import opened Ordering
  import opened Wiring
  import opened Ownership
  import opened Tokens
  import opened Halting
  import opened Edits
  import opened Views
  import opened Answers
  import Exterior

  ghost predicate Sound(s: Sys) {
    Inv(s) && Refines(s) && Agrees(s)
  }

  lemma InitSound()
    ensures Sound(Init) && Uncut(Init)
  {
    InitConserved();
    assert RunningSet(Init.sched.agents) == {};
    forall id: Id ensures AddsOnce(Log(Init, id)) {
      assert Log(Init, id) == [];
    }
  }

  lemma StepSound(s: Sys, step: Step)
    requires Sound(s) && Enabled(s, step)
    ensures Sound(Next(s, step))
  {
    StepKeepsOrder(s, step);
    StepKeepsWiring(s, step);
    StepKeepsOwnership(s, step);
    StepConserves(s, step);
    StepKeepsStopping(s, step);
    StepRefines(s, step);
    StepAgrees(s, step);
  }

  lemma {:induction false} RunSound(s: Sys, steps: seq<Step>)
    requires Sound(s) && Legal(s, steps)
    ensures Sound(After(s, steps))
    decreases |steps|
  {
    if steps != [] {
      StepSound(s, steps[0]);
      RunSound(Next(s, steps[0]), steps[1..]);
    }
  }

  lemma {:induction false} SoftRunUncut(s: Sys, steps: seq<Step>)
    requires Sound(s) && Uncut(s) && Legal(s, steps)
    requires forall k :: 0 <= k < |steps| ==> !steps[k].AddElement?
    ensures Uncut(After(s, steps))
    decreases |steps|
  {
    if steps != [] {
      StepSound(s, steps[0]);
      StepUncut(s, steps[0]);
      assert forall k :: 0 <= k < |steps[1..]| ==> steps[1..][k] == steps[k + 1];
      SoftRunUncut(Next(s, steps[0]), steps[1..]);
    }
  }

  // ------------------------------------------------------------------ emptiness of the ports

  /** Every packet that reached a scheduled port has been read; none was discarded either. */
  ghost predicate PortsEmpty(s: Sys) {
    forall c :: 0 <= c < |s.channels| && s.channels[c].scheduled ==> s.channels[c].queue == [] && s.channels[c].lost == 0
  }

  /** Behind every declared input and every array element of a registered agent there is a channel, and nothing is left
      in it or was discarded from it. */
  ghost predicate InputsRead(s: Sys) {
    forall n :: n in s.ext.agents ==>
      var c := s.ext.agents[n];
      && (forall p :: Declares(c.sort.inputs, p) ==> p in c.inputs && AllRead(s, c.inputs[p]))
      && (forall p, e :: Holds(c, p, e) ==> AllRead(s, c.inputsArray[p][e]))
  }

  predicate AllRead(s: Sys, c: ChanId) {
    c < |s.channels| && s.channels[c].queue == [] && s.channels[c].lost == 0
  }

  lemma EmptyMeansRead(s: Sys)
    requires Wired(s) && PortsEmpty(s)
    ensures InputsRead(s)
  {
    forall n | n in s.ext.agents
      ensures var c := s.ext.agents[n];
        && (forall p :: Declares(c.sort.inputs, p) ==> p in c.inputs && AllRead(s, c.inputs[p]))
        && (forall p, e :: Holds(c, p, e) ==> AllRead(s, c.inputsArray[p][e]))
    {
      assert CompTyped(s.sorts, s.channels, s.ext.agents[n]);
    }
  }

  ghost predicate AllIdle(s: Sys) {
    forall i :: i in s.sched.agents ==> s.sched.agents[i].comp.Some?
  }

  predicate CountsTokens(m: CompMsg) {
    m.Inc? || m.Dec? || m.NewAgent?
  }

  lemma SettledMeansNoLoad(s: Sys, i: Id)
    requires ConservedAt(s, i) && s.half == map[] && Ips(s.sched.agents, i) <= 0
    requires Inc(i) !in s.mailbox && Dec(i) !in s.mailbox
    ensures Load(s.channels, i) == 0
  {
    assert Debtors(s.half, Inc(i)) == {} && Debtors(s.half, Dec(i)) == {};
  }

  lemma IdleMeansEmpty(s: Sys)
    requires Ordered(s) && OwnershipInv(s) && Conserved(s) && AllIdle(s) && s.half == map[]
    requires forall p :: 0 <= p < |s.mailbox| ==> !CountsTokens(s.mailbox[p])
    ensures PortsEmpty(s)
  {
    forall c | 0 <= c < |s.channels| && s.channels[c].scheduled ensures s.channels[c].queue == [] && s.channels[c].lost == 0 {
      var i := s.channels[c].owner;
      assert ConservedAt(s, i);
      assert KnownAt(s.sched.agents, s.mailbox, |s.mailbox|, i);
      assert forall p :: 0 <= p < |s.mailbox| ==> !Creates(s.mailbox[p], i);
      assert i in s.sched.agents && s.sched.agents[i].ips <= 0;
      SettledMeansNoLoad(s, i);
      NoLoad(s.channels, i);
    }
  }

  lemma NothingRuns(s: Sys)
    requires OwnershipInv(s) && Stopping(s) && (Halt in s.mailbox || s.halted)
    ensures s.extDone && s.jobs == map[] && s.half == map[] && AllIdle(s)
  {
    AllHome(s);
    assert forall a :: a in s.half ==> MayAct(s, a);
    assert s.half.Keys == {};
  }

  lemma HaltMeansEmpty(s: Sys)
    requires Ordered(s) && OwnershipInv(s) && Conserved(s) && Stopping(s) && Halt in s.mailbox
    ensures s.mailbox == [Halt] && s.jobs == map[] && s.half == map[] && AllIdle(s) && PortsEmpty(s)
  {
    NothingRuns(s);
    IdleMeansEmpty(s);
  }

  lemma HaltedMeansEmpty(s: Sys, next: Step)
    requires Ordered(s) && OwnershipInv(s) && Conserved(s) && Stopping(s) && s.halted
    ensures PortsEmpty(s) && !Enabled(s, next)
  {
    NothingRuns(s);
    IdleMeansEmpty(s);
  }

  // ------------------------------------------------------------------ main results

  /** Safe halt: when the loop reaches Halt no agent is out, nothing else is in the mailbox, no thread owes
      an announcement, and every scheduled queue is empty. */
  lemma {:induction false} SafeHalt(steps: seq<Step>)
    requires Legal(Init, steps)
    ensures var s := After(Init, steps);
      Halt in s.mailbox ==>
        s.mailbox == [Halt] && s.jobs == map[] && s.half == map[] && AllIdle(s) && PortsEmpty(s) && InputsRead(s)
  {
    InitSound();
    RunSound(Init, steps);
    if Halt in After(Init, steps).mailbox {
      HaltMeansEmpty(After(Init, steps));
      EmptyMeansRead(After(Init, steps));
    }
  }

  /** After the loop has left, nothing can happen any more and the ports are still empty. */
  lemma {:induction false} HaltedIsFinal(steps: seq<Step>, next: Step)
    requires Legal(Init, steps) && After(Init, steps).halted
    ensures !Enabled(After(Init, steps), next)
    ensures PortsEmpty(After(Init, steps)) && InputsRead(After(Init, steps))
  {
    InitSound();
    RunSound(Init, steps);
    HaltedMeansEmpty(After(Init, steps), next);
    EmptyMeansRead(After(Init, steps));
  }

  /** Token conservation, for every agent id of every reachable state. */
  lemma {:induction false} TokenConservation(steps: seq<Step>, id: Id)
    requires Legal(Init, steps)
    ensures var s := After(Init, steps);
      Ips(s.sched.agents, id) + Pending(s.mailbox, Inc(id)) - Pending(s.mailbox, Dec(id))
      == Load(s.channels, id) - Owed(s.half, Inc(id)) + Owed(s.half, Dec(id))
  {
    InitSound();
    RunSound(Init, steps);
    assert ConservedAt(After(Init, steps), id);
  }

  /** No lost wake-up: an agent at home has ips <= 0, and a quiescent system has read everything. */
  lemma {:induction false} NoLostWakeUp(steps: seq<Step>)
    requires Legal(Init, steps)
    ensures var s := After(Init, steps);
      && (forall i :: i in s.sched.agents && s.sched.agents[i].comp.Some? ==> s.sched.agents[i].ips <= 0)
      && (AllIdle(s) && s.mailbox == [] && s.half == map[] ==> PortsEmpty(s) && InputsRead(s))
  {
    InitSound();
    RunSound(Init, steps);
    var s := After(Init, steps);
    if AllIdle(s) && s.mailbox == [] && s.half == map[] {
      IdleMeansEmpty(s);
      EmptyMeansRead(s);
    }
  }

  /** What add_node makes of a sort, in every reachable state: which agents start by themselves, and a channel of its own
      for each port, scheduled exactly for the declared inputs. */
  lemma {:induction false} PortsAsDeclared(steps: seq<Step>, n: string)
    requires Legal(Init, steps) && n in After(Init, steps).ext.agents
    ensures var s := After(Init, steps); var c := s.ext.agents[n];
      c.id in s.sorts && s.sorts[c.id] == c.sort && PortsMade(s.channels, c)
  {
    InitSound();
    RunSound(Init, steps);
    assert CompTyped(After(Init, steps).sorts, After(Init, steps).channels, After(Init, steps).ext.agents[n]);
  }

  lemma SomethingEnabled(s: Sys)
    requires Ordered(s) && !s.panicked
    requires !s.extDone || s.jobs != map[] || s.half != map[] || (s.mailbox != [] && !s.halted)
    ensures exists step :: Enabled(s, step)
  {
    if s.half != map[] {
      var a :| a in s.half;
      assert Enabled(s, Announce(a));
    } else if s.jobs != map[] {
      var j :| j in s.jobs;
      assert Enabled(s, Finish(j, End));
    } else if !s.extDone {
      assert Enabled(s, Join);
    } else {
      assert Enabled(s, Dispatch);
    }
  }

  lemma NothingEnabled(s: Sys, step: Step)
    requires s.extDone && s.jobs == map[] && s.half == map[] && (s.mailbox == [] || s.halted)
    ensures !Enabled(s, step)
  {
  }

  lemma FinalState(s: Sys)
    requires Ordered(s) && !s.panicked
    ensures (forall step :: !Enabled(s, step)) <==> s.extDone && s.jobs == map[] && s.half == map[] && (s.mailbox == [] || s.halted)
  {
    if s.extDone && s.jobs == map[] && s.half == map[] && (s.mailbox == [] || s.halted) {
      forall step ensures !Enabled(s, step) {
        NothingEnabled(s, step);
      }
    } else {
      SomethingEnabled(s);
    }
  }

  /** The system never gets stuck half way: in every reachable state some step is possible, unless stopping was asked for,
      no job is left, nobody owes an announcement, and the loop has left or its mailbox is empty. */
  lemma {:induction false} FinalIff(steps: seq<Step>)
    requires Legal(Init, steps)
    ensures var s := After(Init, steps);
      (forall step :: !Enabled(s, step)) <==> s.extDone && s.jobs == map[] && s.half == map[] && (s.mailbox == [] || s.halted)
  {
    InitSound();
    RunSound(Init, steps);
    FinalState(After(Init, steps));
  }

  ghost predicate SinglyOwned(s: Sys, id: Id)
    requires id in s.sched.agents
  {
    && (s.sched.agents[id].comp.None? <==> JobFor(s.jobs, id) || EndFor(s.mailbox, id))
    && !(JobFor(s.jobs, id) && EndFor(s.mailbox, id))
    && (forall j, k :: j in s.jobs && k in s.jobs && s.jobs[j].id == id && s.jobs[k].id == id ==> j == k)
    && (forall p, q :: 0 <= p < q < |s.mailbox| && Returns(s.mailbox[p], id) ==> !Returns(s.mailbox[q], id))
    && (s.sched.agents[id].comp.None? ==> s.sched.agents[id].isRun)
  }

  lemma OwnedSingly(s: Sys, id: Id)
    requires Owned(s.sched.agents, s.mailbox, s.jobs, s.nextJob) && Settled(s.sched.agents) && id in s.sched.agents
    ensures SinglyOwned(s, id)
  {
  }

  /** Single ownership: a box is absent exactly when one job or one RunEnd has it, never two. */
  lemma {:induction false} SingleOwnership(steps: seq<Step>, id: Id)
    requires Legal(Init, steps) && id in After(Init, steps).sched.agents
    ensures SinglyOwned(After(Init, steps), id)
  {
    InitSound();
    RunSound(Init, steps);
    OwnedSingly(After(Init, steps), id);
  }

  /** `running` is the number of agents with is_run set, so the decrement in run_end never underflows; and
      whenever stopping was asked for and nothing runs, the Halt is already posted. */
  lemma {:induction false} ExactRunningCount(steps: seq<Step>)
    requires Legal(Init, steps)
    ensures var s := After(Init, steps);
      && s.sched.running == |RunningSet(s.sched.agents)|
      && (Enabled(s, Dispatch) && s.mailbox[0].RunEnd? ==>
            s.mailbox[0].id in s.sched.agents && s.sched.agents[s.mailbox[0].id].isRun && s.sched.running >= 1)
      && (s.sched.canHalt && s.sched.running == 0 && !s.halted ==> s.mailbox == [Halt])
      && !s.panicked
  {
    InitSound();
    RunSound(Init, steps);
    var s := After(Init, steps);
    if s.sched.running <= 0 {
      AllHome(s);
    }
  }

  lemma DriedUpIsFinal(s: Sys, next: Step)
    requires s.extDone && s.jobs == map[] && s.mailbox == [] && s.half == map[]
    ensures !Enabled(s, next)
  {
  }

  lemma DriedUpIsIdle(s: Sys)
    requires OwnershipInv(s) && s.jobs == map[] && s.mailbox == []
    ensures AllIdle(s)
  {
    forall i | i in s.sched.agents ensures s.sched.agents[i].comp.Some? {
      assert !JobFor(s.jobs, i) && !EndFor(s.mailbox, i);
    }
  }

  lemma NobodyOwes(s: Sys)
    requires Stopping(s) && s.extDone && s.jobs == map[]
    ensures s.half == map[]
  {
    assert forall a :: a in s.half ==> MayAct(s, a);
    assert s.half.Keys == {};
  }

  lemma MarkedIsUnanswered(s: Sys, last: map<Id, RunResult>)
    requires Answered(s, last) && AllIdle(s)
    ensures RunningSet(s.sched.agents) == {} <==> AllEnded(last)
  {
    forall i | i in s.sched.agents ensures i in RunningSet(s.sched.agents) <==> i in last && last[i] != End {
    }
    if i :| i in last && last[i] != End {
      assert i in RunningSet(s.sched.agents);
    }
  }

  lemma LeftIffNoneMarked(s: Sys)
    requires Counted(s.sched) && Stopping(s) && s.extDone && s.mailbox == []
    ensures s.halted <==> RunningSet(s.sched.agents) == {}
  {
    assert HaltState !in s.mailbox;
  }

  predicate AllEnded(last: map<Id, RunResult>) {
    forall i :: i in last ==> last[i] == End
  }

  lemma DriedUp(s: Sys, last: map<Id, RunResult>)
    requires OwnershipInv(s) && Stopping(s) && Answered(s, last) && s.extDone && s.jobs == map[] && s.mailbox == []
    ensures s.halted <==> AllEnded(last)
    ensures AllIdle(s) && s.half == map[]
  {
    NobodyOwes(s);
    DriedUpIsIdle(s);
    LeftIffNoneMarked(s);
    MarkedIsUnanswered(s, last);
  }

  lemma InitAnswered()
    ensures Answered(Init, map[])
  {
  }

  lemma {:induction false} RunAnswered(s: Sys, steps: seq<Step>, last: map<Id, RunResult>)
    requires Sound(s) && Answered(s, last) && Legal(s, steps)
    ensures Answered(After(s, steps), LastAnswers(s, steps, last))
    decreases |steps|
  {
    if steps != [] {
      StepSound(s, steps[0]);
      StepAnswered(s, steps[0], last);
      RunAnswered(Next(s, steps[0]), steps[1..], Note(last, s, steps[0]));
    }
  }

  lemma {:induction false} AlwaysAnswered(steps: seq<Step>)
    requires Legal(Init, steps)
    ensures Sound(After(Init, steps)) && Answered(After(Init, steps), LastAnswers(Init, steps, map[]))
  {
    InitSound();
    InitAnswered();
    RunSound(Init, steps);
    RunAnswered(Init, steps, map[]);
  }

  lemma MarkedIff(s: Sys, last: map<Id, RunResult>, id: Id)
    requires OwnershipInv(s) && Answered(s, last) && id in s.sched.agents
    ensures s.sched.agents[id].isRun <==> JobFor(s.jobs, id) || EndFor(s.mailbox, id) || (id in last && last[id] != End)
  {
    OwnedSingly(s, id);
  }

  /** An agent is marked running exactly when its box is out, in a job or a RunEnd, or its last run did not answer End. */
  lemma {:induction false} RunningIffUnfinished(steps: seq<Step>, id: Id)
    requires Legal(Init, steps) && id in After(Init, steps).sched.agents
    ensures var s, last := After(Init, steps), LastAnswers(Init, steps, map[]);
      s.sched.agents[id].isRun <==> JobFor(s.jobs, id) || EndFor(s.mailbox, id) || (id in last && last[id] != End)
  {
    AlwaysAnswered(steps);
    MarkedIff(After(Init, steps), LastAnswers(Init, steps, map[]), id);
  }

  lemma {:induction false} DriesUp(steps: seq<Step>)
    requires Legal(Init, steps)
    requires var s := After(Init, steps); s.extDone && s.jobs == map[] && s.mailbox == []
    ensures var s := After(Init, steps); AllIdle(s) && s.half == map[] && (s.halted <==> AllEnded(LastAnswers(Init, steps, map[])))
  {
    AlwaysAnswered(steps);
    DriedUp(After(Init, steps), LastAnswers(Init, steps, map[]));
  }

  /** Once HaltState is posted, no job is left and the mailbox has run dry, nothing can happen any more, and the loop
      has left if and only if every agent that ever ran answered End with its last run. */
  lemma {:induction false} StopsIffFinished(steps: seq<Step>, next: Step)
    requires Legal(Init, steps)
    requires var s := After(Init, steps); s.extDone && s.jobs == map[] && s.mailbox == []
    ensures After(Init, steps).halted <==> AllEnded(LastAnswers(Init, steps, map[]))
    ensures AllIdle(After(Init, steps)) && !Enabled(After(Init, steps), next)
  {
    DriesUp(steps);
    DriedUpIsFinal(After(Init, steps), next);
  }

  lemma {:induction false} Prepend(s: Sys, step: Step, rest: seq<Step>, last: map<Id, RunResult>)
    requires Enabled(s, step) && Legal(Next(s, step), rest)
    ensures Legal(s, [step] + rest) && After(s, [step] + rest) == After(Next(s, step), rest)
    ensures LastAnswers(s, [step] + rest, last) == LastAnswers(Next(s, step), rest, Note(last, s, step))
  {
    assert ([step] + rest)[1..] == rest;
  }

  /** Typed wiring: everything posted, deferred or installed joins a declared port to a channel of a compatible
      schema, and the agent it is for accepts it. */
  lemma {:induction false} TypedWiring(steps: seq<Step>)
    requires Legal(Init, steps)
    ensures var s := After(Init, steps);
      && (forall p :: 0 <= p < |s.mailbox| && s.mailbox[p].EditAgent? ==>
            var m := s.mailbox[p];
            m.id in s.sorts && EditTyped(s.sorts[m.id], m.id, s.channels, m.edit) && EditOk(s.sorts[m.id], m.edit))
      && (forall i :: i in s.sched.agents ==> i in s.sorts && AgentTyped(s.sorts[i], i, s.channels, s.sched.agents[i]))
      && (Enabled(s, Dispatch) && s.mailbox[0] != Halt ==> Handle(s.sched, s.mailbox[0]).status == Fine)
  {
    InitSound();
    RunSound(Init, steps);
    var s := After(Init, steps);
    PostedTyped(s);
    if Enabled(s, Dispatch) && s.mailbox[0] != Halt {
      NothingRefused(s);
    }
  }

  lemma PostedTyped(s: Sys)
    requires Wired(s)
    ensures forall p :: 0 <= p < |s.mailbox| && s.mailbox[p].EditAgent? ==>
      var m := s.mailbox[p];
      m.id in s.sorts && EditTyped(s.sorts[m.id], m.id, s.channels, m.edit) && EditOk(s.sorts[m.id], m.edit)
  {
    forall p | 0 <= p < |s.mailbox| && s.mailbox[p].EditAgent?
      ensures var m := s.mailbox[p];
        m.id in s.sorts && EditTyped(s.sorts[m.id], m.id, s.channels, m.edit) && EditOk(s.sorts[m.id], m.edit)
    {
      assert MsgTyped(s.sorts, s.channels, s.mailbox[p]);
    }
  }

  lemma NothingRefused(s: Sys)
    requires Ordered(s) && Wired(s) && Enabled(s, Dispatch) && s.mailbox[0] != Halt
    ensures Handle(s.sched, s.mailbox[0]).status == Fine
  {
    DispatchKeepsOrder(s);
    HandleTyped(s.sorts, s.channels, s.sched, s.mailbox[0]);
  }

  /** The box has had all of `all` but the `deferred` edits at their end. */
  ghost predicate Lacks(b: Box, sort: Sort, deferred: seq<Edit>, all: seq<Edit>) {
    var n := |all| - |deferred|;
    n >= 0 && all[n..] == deferred && Reflects(b, sort, all[..n])
  }

  /** Deferred edits refine immediate ones: a box at home has had every edit handled so far, and one that is out
      all but the deferred ones. */
  lemma {:induction false} DeferredRefinesImmediate(steps: seq<Step>, id: Id, j: nat)
    requires Legal(Init, steps) && id in After(Init, steps).sched.agents
    ensures var s := After(Init, steps);
      && id in s.received && id in s.sorts
      && (s.sched.agents[id].comp.Some? ==>
            s.sched.agents[id].editMsgs == [] && Reflects(s.sched.agents[id].comp.value, s.sorts[id], s.received[id]))
      && (j in s.jobs && s.jobs[j].id == id ==> Lacks(s.jobs[j].box, s.sorts[id], s.sched.agents[id].editMsgs, s.received[id]))
  {
    InitSound();
    RunSound(Init, steps);
    RefinesMeans(After(Init, steps), id, j);
  }

  lemma AppliedLacks(sort: Sort, deferred: seq<Edit>, all: seq<Edit>, b: Box)
    requires Applied(sort, deferred, all, b)
    ensures Lacks(b, sort, deferred, all)
  {
    ApplyReflects(sort, all[..|all| - |deferred|]);
  }

  lemma RefinesMeans(s: Sys, id: Id, j: nat)
    requires Refines(s) && Wired(s) && Settled(s.sched.agents) && id in s.sched.agents
    ensures id in s.received && id in s.sorts
    ensures s.sched.agents[id].comp.Some? ==>
      s.sched.agents[id].editMsgs == [] && Reflects(s.sched.agents[id].comp.value, s.sorts[id], s.received[id])
    ensures j in s.jobs && s.jobs[j].id == id ==> Lacks(s.jobs[j].box, s.sorts[id], s.sched.agents[id].editMsgs, s.received[id])
  {
    var c := s.sched.agents[id];
    if c.comp.Some? {
      assert AppliedAt(s.sched.agents, s.received, s.sorts, id, c.comp.value);
      assert s.received[id][..|s.received[id]|] == s.received[id];
      ApplyReflects(s.sorts[id], s.received[id]);
    }
    if j in s.jobs && s.jobs[j].id == id {
      assert AppliedAt(s.sched.agents, s.received, s.sorts, s.jobs[j].id, s.jobs[j].box);
      AppliedLacks(s.sorts[id], c.editMsgs, s.received[id], s.jobs[j].box);
    }
  }

  /** Each run starts from a box to which every edit handled so far has been applied. */
  lemma {:induction false} RunsStartUpToDate(steps: seq<Step>)
    requires Legal(Init, steps)
    requires var s := After(Init, steps); Enabled(s, Dispatch) && HasId(s.mailbox[0])
    ensures var s := After(Init, steps);
      var m, e, t := s.mailbox[0], Handle(s.sched, s.mailbox[0]), TakeOne(s);
      e.spawned != [] ==>
        && m.id in t.received && m.id in s.sorts && |e.spawned| == 1 && e.spawned[0].id == m.id
        && Reflects(e.spawned[0].box, s.sorts[m.id], t.received[m.id])
  {
    InitSound();
    RunSound(Init, steps);
    var s := After(Init, steps);
    RunStartsUpToDate(s);
    if Handle(s.sched, s.mailbox[0]).spawned != [] {
      HandleTouchesOneId(s.sched, s.mailbox[0]);
      ApplyReflects(s.sorts[s.mailbox[0].id], TakeOne(s).received[s.mailbox[0].id]);
    }
  }

  /** The exterior table and the receivers agree once the edits of an agent are drained. */
  lemma {:induction false} ViewsAgree(steps: seq<Step>, n: string)
    requires Legal(Init, steps) && n in After(Init, steps).ext.agents
    ensures var s := After(Init, steps); var c := s.ext.agents[n];
      EditsFor(s.mailbox, c.id) == [] && c.id in s.sched.agents && s.sched.agents[c.id].comp.Some? ==>
        SameView(c, s.sched.agents[c.id].comp.value.inarr)
  {
    InitSound();
    RunSound(Init, steps);
    var s := After(Init, steps);
    var c := s.ext.agents[n];
    if EditsFor(s.mailbox, c.id) == [] && c.id in s.sched.agents && s.sched.agents[c.id].comp.Some? {
      DrainedViewsAgree(s, n);
    }
  }

  /** With soft additions only, no channel is ever cut and every receiver ever posted is the one installed in the end. */
  lemma {:induction false} SoftKeepsPairs(steps: seq<Step>, id: Id, k: nat)
    requires Legal(Init, steps)
    requires forall i :: 0 <= i < |steps| ==> !steps[i].AddElement?
    ensures var s := After(Init, steps); forall c :: 0 <= c < |s.channels| ==> s.channels[c].live && s.channels[c].lost == 0
    ensures var s := After(Init, steps); var log := Log(s, id);
      k < |log| && log[k].AddInputArrayElement? ==> Newest(log, InElement(log[k].port, log[k].element)) == Some(log[k].recv)
  {
    InitSound();
    SoftRunUncut(Init, steps);
    var s := After(Init, steps);
    var log := Log(s, id);
    assert AddsOnce(log);
    if k < |log| && log[k].AddInputArrayElement? {
      AddedOnceStays(log, k);
    }
  }

  // ------------------------------------------------------------------ why refused edits must not be posted

  /** The ports among which an edit has to find its own. */
  function PortsFor(sort: Sort, x: Slot): seq<Decl> {
    match x
    case OutPort(_) => sort.outputs
    case OutElement(_, _) => sort.outarr
    case InElement(_, _) => sort.inarr
  }

  predicate NamesDeclared(sort: Sort, e: Edit) {
    var x := SlotOf(e);
    exists i :: 0 <= i < |PortsFor(sort, x)| && PortsFor(sort, x)[i].name == x.port
  }

  lemma OkIff(sort: Sort, e: Edit)
    ensures EditOk(sort, e) <==> NamesDeclared(sort, e)
  {
    assert EditOk(sort, e) <==> Lookup(PortsFor(sort, SlotOf(e)), SlotOf(e).port).Some?;
  }

  /** Draining succeeds exactly when every edit names a declared port of the kind it changes. */
  lemma {:induction false} DrainSucceedsIff(b: Box, es: seq<Edit>)
    ensures Drain(b, es).box.Some? <==> forall k :: 0 <= k < |es| ==> NamesDeclared(b.sort, es[k])
    decreases |es|
  {
    if es != [] {
      OkIff(b.sort, es[0]);
      if EditOk(b.sort, es[0]) {
        DrainSucceedsIff(Install(b, es[0]), es[1..]);
        assert forall k :: 0 <= k < |es[1..]| ==> es[1..][k] == es[k + 1];
        assert forall k :: 1 <= k < |es| ==> es[k] == es[1..][k - 1];
      }
    }
  }

  /** A returning box is put back, or runs again, exactly when every edit deferred meanwhile names a declared
      port. Otherwise it is gone while the agent stays counted as running, so no Halt can follow. */
  lemma BoxReturnsIff(st: Sched, id: Id, b: Box, res: RunResult)
    requires id in st.agents && st.agents[id].comp.None?
    ensures var e := Handle(st, RunEnd(id, b, res));
      && ((e.st.agents[id].comp.Some? || e.spawned != []) <==>
            forall k :: 0 <= k < |st.agents[id].editMsgs| ==> NamesDeclared(b.sort, st.agents[id].editMsgs[k]))
      && (!(e.st.agents[id].comp.Some? || e.spawned != []) ==>
            e.status == Reported && e.posts == [] && e.st.running == st.running
            && e.st.agents[id].isRun == st.agents[id].isRun && e.st.agents[id].editMsgs == [])
  {
    DrainSucceedsIff(b, st.agents[id].editMsgs);
  }
}
