// Names, threads and the running count of the Racket scheduler, kept by every step.
module RktOwnership {
  import opened Counting
  import opened Wrappers
  import opened RktAgent
  import opened RktScheduler
  import opened RktSystem
  import opened RktHandlers

  // ------------------------------------------------------------------ names

  predicate Known(s: Sys, n: string) {
    n in s.sched.agents || n in s.gone
  }

  predicate IsToken(m: Msg) {
    m.IncIp? || m.DecIp?
  }

  /** A fresh name is added once. */
  ghost predicate NamesFresh(s: Sys) {
    && (forall n :: n in s.sched.agents ==> n in s.names && n !in s.gone)
    && (forall n :: n in s.gone ==> n in s.names)
    && (forall p :: 0 <= p < |s.mailbox| && s.mailbox[p].AddAgent? ==> s.mailbox[p].name in s.names && !Known(s, s.mailbox[p].name))
    && (forall p, q :: 0 <= p < q < |s.mailbox| && s.mailbox[p].AddAgent? && s.mailbox[q].AddAgent? ==>
          s.mailbox[p].name != s.mailbox[q].name)
  }

  /** Everything that counts tokens names an agent that was added. */
  ghost predicate TokensNamed(s: Sys) {
    && (forall k :: 0 <= k < |s.channels| ==> Known(s, s.channels[k].owner))
    && (forall p :: 0 <= p < |s.mailbox| && IsToken(s.mailbox[p]) ==> Known(s, s.mailbox[p].agt))
    && OnlyTokens(s, s.half)
  }

  ghost predicate Named(s: Sys) {
    NamesFresh(s) && TokensNamed(s)
  }

  /** What a step other than Take puts into the mailbox. */
  function Posted(s: Sys, step: Step): seq<Msg>
    requires Enabled(s, step)
  {
    match step
    case Announce(a) => [s.half[a]]
    case RecvPost(_, c) => if s.channels[c].synced then [DecIp(s.channels[c].owner)] else []
    case Finish(j) => [RunEnd(s.jobs[j])]
    case Post(m) => [m]
    case _ => []
  }

  /** The frame of the steps that leave the scheduler's own state alone. */
  ghost predicate Outside(s: Sys, t: Sys, posted: seq<Msg>) {
    && t.sched == s.sched && t.gone == s.gone && t.nextJob == s.nextJob
    && t.mailbox == s.mailbox + posted
    && |t.channels| == |s.channels|
    && (forall k :: 0 <= k < |s.channels| ==> t.channels[k].owner == s.channels[k].owner && t.channels[k].synced == s.channels[k].synced)
  }

  ghost predicate OnlyTokens(s: Sys, half: map<Actor, Msg>) {
    forall a :: a in half ==> IsToken(half[a]) && Known(s, half[a].agt)
  }

  lemma PutFrame(s: Sys, a: Actor, c: ChanId, payload: Payload)
    requires c < |s.channels|
    ensures Outside(s, Put(s, a, c, payload), []) && Put(s, a, c, payload).jobs == s.jobs
    ensures TokensNamed(s) ==> OnlyTokens(s, Put(s, a, c, payload).half)
  {
  }

  lemma PullFrame(s: Sys, a: Actor, c: ChanId)
    requires c < |s.channels| && s.channels[c].queue != []
    ensures Outside(s, Pull(s, a, c), []) && Pull(s, a, c).jobs == s.jobs
    ensures TokensNamed(s) ==> OnlyTokens(s, Pull(s, a, c).half)
  {
  }

  lemma PostFrame(s: Sys, step: Step)
    requires Enabled(s, step) && (step.Announce? || step.RecvPost? || step.Finish? || step.Post?)
    ensures Outside(s, Next(s, step), Posted(s, step)) && (!step.Finish? ==> Next(s, step).jobs == s.jobs)
    ensures TokensNamed(s) ==> OnlyTokens(s, Next(s, step).half)
  {
  }

  lemma OutsideFrame(s: Sys, step: Step)
    requires Enabled(s, step) && !step.Take?
    ensures Outside(s, Next(s, step), Posted(s, step)) && (!step.Finish? ==> Next(s, step).jobs == s.jobs)
    ensures TokensNamed(s) ==> OnlyTokens(s, Next(s, step).half)
  {
    if step.LoopPut? {
      PutFrame(s, Loop, s.pc.chan, s.pc.payload);
    } else if step.Push? {
      PutFrame(s, step.actor, step.chan, step.payload);
    } else if step.TryRecv? {
      PullFrame(s, step.actor, step.chan);
    } else if step.Announce? || step.RecvPost? || step.Finish? || step.Post? {
      PostFrame(s, step);
    }
  }

  lemma OutsideNamed(s: Sys, t: Sys, posted: seq<Msg>)
    requires Named(s) && Outside(s, t, posted) && |posted| <= 1 && s.names <= t.names
    requires OnlyTokens(s, t.half)
    requires posted != [] && IsToken(posted[0]) ==> Known(s, posted[0].agt)
    requires posted != [] && posted[0].AddAgent? ==> posted[0].name in t.names && posted[0].name !in s.names
    ensures Named(t)
  {
    assert forall n :: Known(t, n) <==> Known(s, n);
    assert NamesFresh(t);
  }

  lemma TakeNamesFresh(s: Sys, t: Sys, m: Msg, e: Effect)
    requires NamesFresh(s) && s.mailbox != [] && s.mailbox[0] == m && e.Effect? && Counts(s.sched, m, e)
    requires t.mailbox == s.mailbox[1..] && t.sched == e.st && t.gone == Bury(s, m) && t.names == s.names
    ensures NamesFresh(t)
    ensures forall n :: Known(s, n) ==> Known(t, n)
  {
    assert forall p :: 0 <= p < |t.mailbox| ==> t.mailbox[p] == s.mailbox[p + 1];
    assert forall n :: Known(t, n) ==> Known(s, n) || (m.AddAgent? && n == m.name);
  }

  lemma TakeTokensNamed(s: Sys, t: Sys, e: Effect)
    requires TokensNamed(s) && s.mailbox != [] && e.Effect?
    requires forall n :: Known(s, n) ==> Known(t, n)
    requires forall c :: c in e.made ==> c.owner in t.sched.agents
    requires t.mailbox == s.mailbox[1..] && t.channels == s.channels + e.made && t.half == s.half
    ensures TokensNamed(t)
  {
    assert forall p :: 0 <= p < |t.mailbox| ==> t.mailbox[p] == s.mailbox[p + 1];
    forall k | 0 <= k < |t.channels| ensures Known(t, t.channels[k].owner) {
      if k >= |s.channels| {
        assert t.channels[k] in e.made;
      }
    }
  }

  lemma TakeNamed(s: Sys, order: seq<string>)
    requires Named(s) && Enabled(s, Take(order))
    requires var e := Handle(s.sched, |s.channels|, s.mailbox[0], order); e.Effect? && Counts(s.sched, s.mailbox[0], e)
    ensures Named(TakeOne(s, order))
  {
    var t := TakeOne(s, order);
    var e := Handle(s.sched, |s.channels|, s.mailbox[0], order);
    TakeNamesFresh(s, t, s.mailbox[0], e);
    TakeTokensNamed(s, t, e);
  }

  lemma StepNamed(s: Sys, step: Step)
    requires Named(s) && Enabled(s, step) && !step.Take?
    ensures Named(Next(s, step))
  {
    OutsideFrame(s, step);
    OutsideNamed(s, Next(s, step), Posted(s, step));
  }

  // ------------------------------------------------------------------ threads

  function Threads(jobs: map<nat, string>, n: string): set<nat> {
    set j | j in jobs && jobs[j] == n
  }

  function Ends(mailbox: seq<Msg>, n: string): nat {
    multiset(mailbox)[RunEnd(n)]
  }

  ghost predicate OwnedAt(s: Sys, n: string) {
    |Threads(s.jobs, n)| + Ends(s.mailbox, n) == B(n in s.sched.agents && s.sched.agents[n].isRunning)
  }

  /** An agent is running exactly when one thread or one run-end of it is outstanding. */
  ghost predicate Owned(s: Sys) {
    && (forall n: string :: OwnedAt(s, n))
    && (forall j :: j in s.jobs ==> j < s.nextJob)
    && Counted(s.sched) && Awake(s.sched.agents)
    && (forall n :: n in s.gone ==> s.gone[n] <= 0)
  }

  lemma {:induction false} LaunchThreads(jobs: map<nat, string>, next: nat, spawned: seq<string>, n: string)
    requires forall j :: j in jobs ==> j < next
    requires Distinct(spawned)
    ensures var jobs' := Launch(jobs, next, spawned);
      && |Threads(jobs', n)| == |Threads(jobs, n)| + B(n in spawned)
      && (forall j :: j in jobs' ==> j < next + |spawned|)
      && (forall j :: j in jobs ==> j in jobs' && jobs'[j] == jobs[j])
    decreases |spawned|
  {
    if spawned != [] {
      var jobs1 := jobs[next := spawned[0]];
      LaunchThreads(jobs1, next + 1, spawned[1..], n);
      assert spawned == [spawned[0]] + spawned[1..];
      if spawned[0] == n {
        assert Threads(jobs1, n) == Threads(jobs, n) + {next};
        assert n !in spawned[1..];
      } else {
        assert Threads(jobs1, n) == Threads(jobs, n);
      }
    }
  }

  lemma EndsTail(mailbox: seq<Msg>, n: string)
    requires mailbox != []
    ensures Ends(mailbox[1..], n) == Ends(mailbox, n) - B(mailbox[0] == RunEnd(n))
  {
    assert mailbox == [mailbox[0]] + mailbox[1..];
  }

  /** The message at the head meets what HandleCounts asks for. */
  lemma HeadCounts(s: Sys, order: seq<string>)
    requires Named(s) && Owned(s) && Enabled(s, Take(order))
    requires Handle(s.sched, |s.channels|, s.mailbox[0], order).Effect?
    ensures var e := Handle(s.sched, |s.channels|, s.mailbox[0], order); Counts(s.sched, s.mailbox[0], e) && Sums(s.sched, s.mailbox[0], e) && Slip(s.sched, s.mailbox[0]) == 0
  {
    var m := s.mailbox[0];
    if m.RunEnd? {
      assert OwnedAt(s, m.agt);
      EndsTail(s.mailbox, m.agt);
    }
    HandleCounts(s.sched, |s.channels|, m, order);
  }

  lemma TakenOwnedAt(s: Sys, t: Sys, m: Msg, e: Effect, n: string)
    requires OwnedAt(s, n) && s.mailbox != [] && s.mailbox[0] == m && e.Effect? && Counts(s.sched, m, e)
    requires m.AddAgent? ==> m.name !in s.sched.agents
    requires m.RemoveAgent? && m.name in s.sched.agents ==> !s.sched.agents[m.name].isRunning
    requires t.mailbox == s.mailbox[1..] && t.sched == e.st
    requires |Threads(t.jobs, n)| == |Threads(s.jobs, n)| + B(n in e.spawned)
    ensures OwnedAt(t, n)
  {
    EndsTail(s.mailbox, n);
  }

  lemma TakenSettled(s: Sys, m: Msg, e: Effect)
    requires Owned(s) && e.Effect? && Sums(s.sched, m, e) && Slip(s.sched, m) == 0
    requires m.RemoveAgent? && m.name in s.sched.agents ==> !s.sched.agents[m.name].isRunning
    ensures Counted(e.st) && Awake(e.st.agents)
    ensures forall n :: n in Bury(s, m) ==> Bury(s, m)[n] <= 0
  {
  }

  lemma TakeOwned(s: Sys, order: seq<string>)
    requires Named(s) && Owned(s) && Enabled(s, Take(order))
    requires Handle(s.sched, |s.channels|, s.mailbox[0], order).Effect?
    ensures Owned(TakeOne(s, order))
  {
    var t := TakeOne(s, order);
    var e := Handle(s.sched, |s.channels|, s.mailbox[0], order);
    HeadCounts(s, order);
    LaunchThreads(s.jobs, s.nextJob, e.spawned, "");
    forall n: string ensures OwnedAt(t, n) {
      assert OwnedAt(s, n);
      LaunchThreads(s.jobs, s.nextJob, e.spawned, n);
      TakenOwnedAt(s, t, s.mailbox[0], e, n);
    }
    TakenSettled(s, s.mailbox[0], e);
  }

  lemma FinishOwned(s: Sys, j: nat)
    requires Owned(s) && Enabled(s, Finish(j))
    ensures Owned(Next(s, Finish(j)))
  {
    var t := Next(s, Finish(j));
    forall n: string ensures OwnedAt(t, n) {
      assert OwnedAt(s, n);
      if s.jobs[j] == n {
        assert Threads(t.jobs, n) == Threads(s.jobs, n) - {j};
      } else {
        assert Threads(t.jobs, n) == Threads(s.jobs, n);
      }
    }
  }

  lemma OtherOwned(s: Sys, t: Sys, posted: seq<Msg>)
    requires Owned(s) && Outside(s, t, posted) && t.jobs == s.jobs
    requires |posted| <= 1 && (posted != [] ==> !posted[0].RunEnd?)
    ensures Owned(t)
  {
    forall n: string ensures OwnedAt(t, n) {
      assert OwnedAt(s, n);
    }
  }

  lemma StepOwned(s: Sys, step: Step)
    requires Named(s) && Owned(s) && Enabled(s, step) && !step.Take?
    ensures Owned(Next(s, step))
  {
    if step.Finish? {
      FinishOwned(s, step.job);
    } else {
      OutsideFrame(s, step);
      OtherOwned(s, Next(s, step), Posted(s, step));
    }
  }
}
