// The main results about the Racket scheduler, for every legal run from the empty scheduler: names are fresh,
// running agents are not removed, and nothing outside acts after msg-stop. The loop itself may die on a missing
// key; the results then speak of the state in which it died no more, and DiesIff says when that happens.
module RktRuns {
  import opened Counting
  import opened Wrappers
  import opened RktAgent
  import opened RktScheduler
  import opened RktSystem
  import opened RktHandlers
  import opened RktOwnership
  import opened RktTokens

  /** The stop protocol: the loop waits only while there is something to wait for, and leaves only when done. */
  ghost predicate Stopping(s: Sys) {
    && (forall a :: a in s.half ==> a == Loop || MayAct(s, a))
    && (forall a :: a in s.reading ==> MayAct(s, a))
    && (s.pc.Sending? ==> Loop !in s.half && !s.exited)
    && (s.stopped <==> s.sched.willStop || Stop in s.mailbox)
    && (s.pc == Waiting ==> !(s.sched.willStop && s.sched.running == 0))
    && (s.exited ==> s.sched.willStop && s.sched.running == 0 && s.mailbox == [] && Loop !in s.half)
  }

  ghost predicate Good(s: Sys) {
    Named(s) && Owned(s) && Conserved(s) && Stopping(s)
  }

  lemma ThreadRuns(s: Sys, j: nat)
    requires Owned(s) && j in s.jobs
    ensures s.jobs[j] in RunningSet(s.sched.agents)
  {
    assert OwnedAt(s, s.jobs[j]);
    assert j in Threads(s.jobs, s.jobs[j]);
  }

  /** No agent counted as running: no thread is left and no run-end is on its way. */
  lemma NoneRunning(s: Sys)
    requires Owned(s) && s.sched.running == 0
    ensures s.jobs == map[]
    ensures forall n :: RunEnd(n) !in s.mailbox
    ensures forall n :: n in s.sched.agents ==> !s.sched.agents[n].isRunning
  {
    assert RunningSet(s.sched.agents) == {};
    forall n ensures RunEnd(n) !in s.mailbox {
      assert OwnedAt(s, n);
      assert n !in RunningSet(s.sched.agents);
    }
    forall n | n in s.sched.agents ensures !s.sched.agents[n].isRunning {
      assert n !in RunningSet(s.sched.agents);
    }
    forall j | j in s.jobs ensures s.jobs[j] in RunningSet(s.sched.agents) {
      ThreadRuns(s, j);
    }
    assert s.jobs.Keys == {};
  }

  lemma TakenStopping(s: Sys, t: Sys, m: Msg, e: Effect)
    requires Stopping(s) && s.mailbox != [] && s.mailbox[0] == m && !s.exited && Loop !in s.half
    requires e.Effect? && Counts(s.sched, m, e)
    requires t.sched == e.st && t.mailbox == s.mailbox[1..] && !t.pc.Waiting?
    requires t.half == s.half && t.reading == s.reading && t.stopped == s.stopped && t.exited == s.exited
    requires forall a :: MayAct(s, a) ==> MayAct(t, a)
    ensures Stopping(t)
  {
    assert s.mailbox == [m] + s.mailbox[1..];
  }

  lemma TakeStopping(s: Sys, order: seq<string>)
    requires Named(s) && Owned(s) && Stopping(s) && Enabled(s, Take(order))
    requires Handle(s.sched, |s.channels|, s.mailbox[0], order).Effect?
    ensures Stopping(TakeOne(s, order))
  {
    var t := TakeOne(s, order);
    var e := Handle(s.sched, |s.channels|, s.mailbox[0], order);
    HeadCounts(s, order);
    LaunchThreads(s.jobs, s.nextJob, e.spawned, "");
    TakenStopping(s, t, s.mailbox[0], e);
  }

  lemma StepStopping(s: Sys, step: Step)
    requires Named(s) && Owned(s) && Stopping(s) && Enabled(s, step) && !step.Take?
    ensures Stopping(Next(s, step))
  {
    if s.exited {
      NoneRunning(s);
    }
    if step.Post? || step.Finish? {
      PostStopping(s, step);
    } else {
      MoveStopping(s, step);
    }
  }

  lemma PostStopping(s: Sys, step: Step)
    requires Stopping(s) && Enabled(s, step) && (step.Post? || step.Finish?)
    requires s.exited ==> s.jobs == map[]
    ensures Stopping(Next(s, step))
  {
  }

  lemma MoveStopping(s: Sys, step: Step)
    requires Stopping(s) && OnlyTokens(s, s.half) && Enabled(s, step) && !step.Take? && !step.Post? && !step.Finish?
    requires s.exited ==> s.jobs == map[]
    ensures Stopping(Next(s, step))
  {
    var t := Next(s, step);
    assert forall a :: MayAct(s, a) <==> MayAct(t, a);
    if step.RecvPost? || step.Announce? {
      TokenPosted(s, step);
    }
  }

  lemma TokenPosted(s: Sys, step: Step)
    requires Stopping(s) && OnlyTokens(s, s.half) && Enabled(s, step) && (step.RecvPost? || step.Announce?)
    requires s.exited ==> s.jobs == map[]
    ensures var t := Next(s, step); !s.exited && (Stop in t.mailbox <==> Stop in s.mailbox)
  {
  }

  ghost predicate Sound(s: Sys) {
    s.crashed || Good(s)
  }

  lemma InitSound()
    ensures Sound(Init)
  {
    assert RunningSet(Init.sched.agents) == {};
    forall n: string ensures OwnedAt(Init, n) && ConservedAt(Init, n) {
      assert Threads(Init.jobs, n) == {};
      assert Debtors(Init.half, IncIp(n)) == {} && Debtors(Init.half, DecIp(n)) == {} && Readers(Init.reading, n) == {};
    }
  }

  lemma TakeSound(s: Sys, order: seq<string>)
    requires Good(s) && Enabled(s, Take(order))
    ensures Sound(TakeOne(s, order))
  {
    if Handle(s.sched, |s.channels|, s.mailbox[0], order).Effect? {
      HeadCounts(s, order);
      TakeNamed(s, order);
      TakeOwned(s, order);
      TakeConserves(s, order);
      TakeStopping(s, order);
    }
  }

  lemma StepSound(s: Sys, step: Step)
    requires Sound(s) && Enabled(s, step)
    ensures Sound(Next(s, step))
  {
    if s.crashed {
      assert Next(s, step).crashed;
    } else if step.Take? {
      TakeSound(s, step.order);
    } else {
      StepNamed(s, step);
      StepOwned(s, step);
      StepConserves(s, step);
      StepStopping(s, step);
    }
  }

  lemma {:induction false} RunSound(s: Sys, steps: seq<Step>)
    requires Sound(s) && Legal(s, steps)
    ensures Sound(After(s, steps))
    decreases |steps|
  {
    if steps != [] {
      StepSound(s, steps[0]);
      RunSound(Next(s, steps[0]), steps[1..]);
    }
  }

  // ------------------------------------------------------------------ main results

  /** Every packet put into a synced port has been received, and none was swallowed. */
  ghost predicate PortsEmpty(s: Sys) {
    forall c :: 0 <= c < |s.channels| && s.channels[c].synced ==> s.channels[c].queue == [] && s.channels[c].swallowed == 0
  }

  /** Nobody is in the middle of a port operation. */
  predicate Quiet(s: Sys) {
    s.half == map[] && s.reading == map[]
  }

  lemma IdleMeansEmpty(s: Sys)
    requires Good(s) && Quiet(s)
    requires forall n :: n in s.sched.agents ==> !s.sched.agents[n].isRunning
    requires forall p :: 0 <= p < |s.mailbox| ==> !IsToken(s.mailbox[p])
    ensures PortsEmpty(s)
  {
    forall c | 0 <= c < |s.channels| && s.channels[c].synced ensures s.channels[c].queue == [] && s.channels[c].swallowed == 0 {
      var n := s.channels[c].owner;
      assert ConservedAt(s, n);
      assert Debtors(s.half, IncIp(n)) == {} && Debtors(s.half, DecIp(n)) == {} && Readers(s.reading, n) == {};
      assert IncIp(n) !in s.mailbox && DecIp(n) !in s.mailbox;
      NoLoad(s.channels, n);
    }
  }

  lemma StoppedMeansQuiet(s: Sys)
    requires Stopping(s) && s.stopped && s.jobs == map[] && Loop !in s.half
    ensures Quiet(s)
  {
    assert s.half.Keys == {} && s.reading.Keys == {};
  }

  lemma ExitedMeansEmpty(s: Sys)
    requires Good(s) && s.exited
    ensures s.jobs == map[] && Quiet(s) && PortsEmpty(s)
  {
    NoneRunning(s);
    StoppedMeansQuiet(s);
    IdleMeansEmpty(s);
  }

  /** A loop that died does not return. */
  lemma {:induction false} DeadOrReturned(s: Sys, steps: seq<Step>)
    requires !(s.exited && s.crashed) && Legal(s, steps)
    ensures !(After(s, steps).exited && After(s, steps).crashed)
    decreases |steps|
  {
    if steps != [] {
      DeadOrReturned(Next(s, steps[0]), steps[1..]);
    }
  }

  /** Clean stop: the loop returns only when no thread is left, nobody owes or awaits anything, the mailbox is
      empty and every synced queue has been read; and nothing at all can happen afterwards. */
  lemma {:induction false} CleanStop(steps: seq<Step>, next: Step)
    requires Legal(Init, steps) && After(Init, steps).exited
    ensures var s := After(Init, steps);
      s.mailbox == [] && s.jobs == map[] && Quiet(s) && PortsEmpty(s) && !Enabled(s, next)
  {
    DeadOrReturned(Init, steps);
    InitSound();
    RunSound(Init, steps);
    ExitedMeansEmpty(After(Init, steps));
  }

  /** number-running is the number of agents that are running, each of which has one thread or one run-end
      outstanding; an agent that is not running has nothing announced to it. */
  lemma {:induction false} RunningIsExact(steps: seq<Step>, n: string)
    requires Legal(Init, steps) && !After(Init, steps).crashed
    ensures var s := After(Init, steps);
      && s.sched.running == |RunningSet(s.sched.agents)|
      && |Threads(s.jobs, n)| + Ends(s.mailbox, n) == B(n in RunningSet(s.sched.agents))
      && (n in s.sched.agents && !s.sched.agents[n].isRunning ==> s.sched.agents[n].ips <= 0)
  {
    InitSound();
    RunSound(Init, steps);
    assert OwnedAt(After(Init, steps), n);
  }

  /** Token conservation, with the receives that announced themselves before they got their packet. */
  lemma {:induction false} TokenConservation(steps: seq<Step>, n: string)
    requires Legal(Init, steps) && !After(Init, steps).crashed
    ensures var s := After(Init, steps);
      Ips(s, n) + Pending(s.mailbox, IncIp(n)) - Pending(s.mailbox, DecIp(n))
      == Load(s.channels, n) - |Debtors(s.half, IncIp(n))| + |Debtors(s.half, DecIp(n))| - |Readers(s.reading, n)|
  {
    InitSound();
    RunSound(Init, steps);
    assert ConservedAt(After(Init, steps), n);
  }

  /** No lost wake-up: once every agent is idle, the mailbox is empty and no operation is half done, every packet
      has been read. */
  lemma {:induction false} NoLostWakeUp(steps: seq<Step>)
    requires Legal(Init, steps) && !After(Init, steps).crashed
    requires var s := After(Init, steps); s.sched.running == 0 && s.mailbox == [] && Quiet(s)
    ensures PortsEmpty(After(Init, steps))
  {
    InitSound();
    RunSound(Init, steps);
    NoneRunning(After(Init, steps));
    IdleMeansEmpty(After(Init, steps));
  }

  /** A swallowed packet keeps the owner's counter up for ever, so the loop never returns: it can return only
      from states in which no packet #f was ever lost from a synced port. */
  lemma {:induction false} SwallowedNeverStops(steps: seq<Step>, c: nat)
    requires Legal(Init, steps)
    requires var s := After(Init, steps); c < |s.channels| && s.channels[c].synced && s.channels[c].swallowed > 0
    ensures !After(Init, steps).exited
  {
    DeadOrReturned(Init, steps);
    InitSound();
    RunSound(Init, steps);
    if After(Init, steps).exited {
      ExitedMeansEmpty(After(Init, steps));
    }
  }

  /** No missed stop: after msg-stop, with no thread left, nothing in the mailbox and no packet of the loop's own
      under way, the loop has returned or returns with its next look at the mailbox. */
  lemma {:induction false} NoMissedStop(steps: seq<Step>)
    requires Legal(Init, steps) && !After(Init, steps).crashed
    requires var s := After(Init, steps);
      s.stopped && s.jobs == map[] && s.mailbox == [] && Loop !in s.half && !s.pc.Sending?
    ensures var s := After(Init, steps); s.exited || (Enabled(s, Poll) && Next(s, Poll).exited)
  {
    InitSound();
    RunSound(Init, steps);
    var s := After(Init, steps);
    forall n ensures n !in RunningSet(s.sched.agents) {
      assert OwnedAt(s, n);
      assert Threads(s.jobs, n) == {};
    }
    assert RunningSet(s.sched.agents) == {};
  }

  lemma HeadNeeds(s: Sys, order: seq<string>)
    requires Good(s) && Enabled(s, Take(order))
    ensures var m := s.mailbox[0];
      && (IsToken(m) ==> (m.agt in s.sched.agents <==> m.agt !in s.gone))
      && (m.RunEnd? ==> m.agt in s.sched.agents)
  {
    var m := s.mailbox[0];
    if m.RunEnd? {
      assert OwnedAt(s, m.agt);
      EndsTail(s.mailbox, m.agt);
    } else if IsToken(m) {
      assert Known(s, m.agt);
    }
  }

  lemma HeadRaises(s: Sys, order: seq<string>)
    requires Good(s) && Enabled(s, Take(order))
    ensures var m := s.mailbox[0];
      && (TakeOne(s, order).crashed <==> exists x :: x in Needs(m) && !Has(s.sched, x))
      && (IsToken(m) ==> (TakeOne(s, order).crashed <==> m.agt in s.gone))
      && (m.RunEnd? ==> !TakeOne(s, order).crashed)
  {
    var m := s.mailbox[0];
    RaisesIff(s.sched, |s.channels|, m, order);
    HeadNeeds(s, order);
    if IsToken(m) || m.RunEnd? {
      assert Needs(m) == {AgentOf(m.agt)};
    }
  }

  /** When the loop dies: exactly if the message names something that is not there. For a token that means that its
      agent was removed while the token was under way; a run-end always finds its agent. */
  lemma {:induction false} DiesIff(steps: seq<Step>, order: seq<string>)
    requires Legal(Init, steps) && Enabled(After(Init, steps), Take(order))
    ensures var s := After(Init, steps); var m := s.mailbox[0];
      && (TakeOne(s, order).crashed <==> exists x :: x in Needs(m) && !Has(s.sched, x))
      && (IsToken(m) ==> (TakeOne(s, order).crashed <==> m.agt in s.gone))
      && (m.RunEnd? ==> !TakeOne(s, order).crashed)
  {
    InitSound();
    RunSound(Init, steps);
    HeadRaises(After(Init, steps), order);
  }

  // ------------------------------------------------------------------ when nothing can happen

  predicate NothingIn(s: Sys, c: ChanId) {
    c < |s.channels| ==> s.channels[c].queue == []
  }

  /** The loop waits for room for a packet of its own, or for a message, or is gone; or it would have to remove an agent
      that is running, which these runs leave out. */
  predicate LoopWaits(s: Sys) {
    if s.pc.Sending? then s.pc.chan < |s.channels| ==> |s.channels[s.pc.chan].queue| >= 30
    else
      || s.exited || s.crashed
      || (s.mailbox == [] && s.pc == Waiting)
      || (s.mailbox != [] && s.mailbox[0].RemoveAgent? && s.mailbox[0].name in s.sched.agents
          && s.sched.agents[s.mailbox[0].name].isRunning)
  }

  /** Msg-stop has been posted, nobody owes an announcement, every receive that was begun waits at an empty channel, every
      thread is in such a receive, and the loop waits or is gone. */
  predicate AllWait(s: Sys) {
    && s.stopped && s.half == map[] && LoopWaits(s)
    && (forall a :: a in s.reading ==> NothingIn(s, s.reading[a].chan))
    && (forall j :: j in s.jobs ==> Worker(j) in s.reading)
  }

  lemma {:induction false} SomeWalk(agents: map<string, AgentState>) returns (order: seq<string>)
    ensures Walks(order, agents)
    decreases |agents|
  {
    order := [];
    if agents != map[] {
      var n :| n in agents;
      assert |agents - {n}| < |agents| by {
        assert (agents - {n}).Keys == agents.Keys - {n};
        assert |agents.Keys - {n}| < |agents.Keys|;
      }
      var rest := SomeWalk(agents - {n});
      order := rest + [n];
      assert forall m :: m in order <==> m in rest || m == n;
    }
  }

  lemma LoopMoves(s: Sys) returns (step: Step)
    requires !LoopWaits(s) && Loop !in s.half && (s.pc.Sending? ==> s.pc.chan < |s.channels|)
    ensures Enabled(s, step)
  {
    if s.pc.Sending? {
      step := LoopPut;
    } else if s.mailbox == [] {
      step := Poll;
    } else {
      var order := SomeWalk(s.sched.agents);
      step := Take(order);
    }
  }

  lemma SomebodyMoves(s: Sys) returns (step: Step)
    requires !AllWait(s)
    requires forall a :: a in s.reading ==> s.reading[a].chan < |s.channels|
    ensures Enabled(s, step)
  {
    if !s.stopped {
      step := Post(Other);
    } else if a :| a in s.half {
      step := Announce(a);
    } else if a :| a in s.reading && !NothingIn(s, s.reading[a].chan) {
      step := RecvGet(a);
    } else if j :| j in s.jobs && Worker(j) !in s.reading {
      step := Finish(j);
    } else {
      step := LoopMoves(s);
    }
  }

  lemma NobodyMoves(s: Sys, step: Step)
    requires AllWait(s)
    ensures !Enabled(s, step)
  {
  }

  /** The system stands still exactly when all wait. */
  lemma {:induction false} StuckIff(steps: seq<Step>)
    requires Legal(Init, steps) && !After(Init, steps).crashed
    ensures var s := After(Init, steps); (forall step :: !Enabled(s, step)) <==> AllWait(s)
  {
    InitSound();
    RunSound(Init, steps);
    StuckState(After(Init, steps));
  }

  lemma StuckState(s: Sys)
    requires forall a :: a in s.reading ==> s.reading[a].chan < |s.channels|
    ensures (forall step :: !Enabled(s, step)) <==> AllWait(s)
  {
    if AllWait(s) {
      forall step ensures !Enabled(s, step) {
        NobodyMoves(s, step);
      }
    } else {
      var step := SomebodyMoves(s);
    }
  }
}
