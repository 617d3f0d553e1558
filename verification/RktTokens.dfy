// Token conservation for the Racket scheduler. Its blocking receive announces itself before it has a packet,
// so the receives still waiting are part of the balance.
module RktTokens {
  import opened Counting
  import opened Wrappers
  import opened RktAgent
  import opened RktScheduler
  import opened RktSystem
  import opened RktHandlers
  import opened RktOwnership

  /** Packets of a synced channel of agent `n`: queued, or removed without an announcement. */
  function Weight(c: Chan, n: string): nat {
    if c.synced && c.owner == n then |c.queue| + c.swallowed else 0
  }

  function Load(cs: seq<Chan>, n: string): nat {
    if cs == [] then 0 else Load(cs[..|cs| - 1], n) + Weight(cs[|cs| - 1], n)
  }

  /** number-ips, or what it was when the agent was removed. */
  function Ips(s: Sys, n: string): int {
    if n in s.sched.agents then s.sched.agents[n].ips else if n in s.gone then s.gone[n] else 0
  }

  function Pending(mailbox: seq<Msg>, m: Msg): nat {
    multiset(mailbox)[m]
  }

  function Debtors(half: map<Actor, Msg>, m: Msg): set<Actor> {
    Holders(half, m)
  }

  function Readers(reading: map<Actor, Wait>, n: string): set<Actor> {
    set a | a in reading && reading[a].dest == Some(n)
  }

  ghost predicate ConservedAt(s: Sys, n: string) {
    Ips(s, n) + Pending(s.mailbox, IncIp(n)) - Pending(s.mailbox, DecIp(n))
    == Load(s.channels, n) - |Debtors(s.half, IncIp(n))| + |Debtors(s.half, DecIp(n))| - |Readers(s.reading, n)|
  }

  ghost predicate Conserved(s: Sys) {
    && (forall n: string :: ConservedAt(s, n))
    && (forall a :: a in s.reading ==>
          s.reading[a].chan < |s.channels| && s.reading[a].dest == Dest(s.channels[s.reading[a].chan]))
  }

  // ------------------------------------------------------------------ sums

  lemma {:induction false} LoadUpdate(cs: seq<Chan>, c: nat, ch: Chan, n: string)
    requires c < |cs|
    ensures Load(cs[c := ch], n) == Load(cs, n) - Weight(cs[c], n) + Weight(ch, n)
  {
    var last := |cs| - 1;
    if c == last {
      assert cs[c := ch][..last] == cs[..last];
    } else {
      assert cs[c := ch][..last] == cs[..last][c := ch];
      LoadUpdate(cs[..last], c, ch, n);
    }
  }

  lemma {:induction false} LoadAppend(cs: seq<Chan>, more: seq<Chan>, n: string)
    requires forall c :: c in more ==> Weight(c, n) == 0
    ensures Load(cs + more, n) == Load(cs, n)
  {
    if more == [] {
      assert cs + more == cs;
    } else {
      var last := |more| - 1;
      assert (cs + more)[..|cs + more| - 1] == cs + more[..last];
      LoadAppend(cs, more[..last], n);
    }
  }

  lemma {:induction false} NoLoad(cs: seq<Chan>, n: string)
    requires Load(cs, n) == 0
    ensures forall c :: 0 <= c < |cs| && cs[c].synced && cs[c].owner == n ==> cs[c].queue == [] && cs[c].swallowed == 0
  {
    if cs != [] {
      NoLoad(cs[..|cs| - 1], n);
      forall c | 0 <= c < |cs| && cs[c].synced && cs[c].owner == n ensures cs[c].queue == [] && cs[c].swallowed == 0 {
        assert c < |cs| - 1 ==> cs[..|cs| - 1][c] == cs[c];
      }
    }
  }

  lemma DebtAdd(half: map<Actor, Msg>, a: Actor, v: Msg, m: Msg)
    requires a !in half
    ensures |Debtors(half[a := v], m)| == |Debtors(half, m)| + B(v == m)
  {
    HolderAdded(half, a, v, m);
  }

  lemma DebtPaid(half: map<Actor, Msg>, a: Actor, m: Msg)
    requires a in half
    ensures |Debtors(half - {a}, m)| == |Debtors(half, m)| - B(half[a] == m)
  {
    HolderRemoved(half, a, m);
  }

  lemma ReaderAdd(reading: map<Actor, Wait>, a: Actor, w: Wait, n: string)
    requires a !in reading
    ensures |Readers(reading[a := w], n)| == |Readers(reading, n)| + B(w.dest == Some(n))
  {
    var r, r' := Readers(reading, n), Readers(reading[a := w], n);
    assert forall x :: x in r' <==> x in r || (x == a && w.dest == Some(n));
    assert a !in r;
    if w.dest == Some(n) {
      assert r' == r + {a};
    } else {
      assert r' == r;
    }
  }

  lemma ReaderServed(reading: map<Actor, Wait>, a: Actor, n: string)
    requires a in reading
    ensures |Readers(reading - {a}, n)| == |Readers(reading, n)| - B(reading[a].dest == Some(n))
  {
    assert reading == (reading - {a})[a := reading[a]];
    ReaderAdd(reading - {a}, a, reading[a], n);
  }

  lemma PendingTail(mailbox: seq<Msg>, m: Msg)
    requires mailbox != []
    ensures Pending(mailbox[1..], m) == Pending(mailbox, m) - B(mailbox[0] == m)
  {
    assert mailbox == [mailbox[0]] + mailbox[1..];
  }

  // ------------------------------------------------------------------ steps

  lemma TakenIps(s: Sys, t: Sys, m: Msg, e: Effect, n: string)
    requires NamesFresh(s) && s.mailbox != [] && s.mailbox[0] == m && e.Effect? && Counts(s.sched, m, e)
    requires t.sched == e.st && t.gone == Bury(s, m)
    ensures Ips(t, n) == Ips(s, n) + B(m == IncIp(n)) - B(m == DecIp(n))
  {
  }

  lemma TakeConserves(s: Sys, order: seq<string>)
    requires Named(s) && Owned(s) && Conserved(s) && Enabled(s, Take(order))
    requires Handle(s.sched, |s.channels|, s.mailbox[0], order).Effect?
    ensures Conserved(TakeOne(s, order))
  {
    var t := TakeOne(s, order);
    var m := s.mailbox[0];
    var e := Handle(s.sched, |s.channels|, m, order);
    HeadCounts(s, order);
    forall n: string ensures ConservedAt(t, n) {
      assert ConservedAt(s, n);
      TakenIps(s, t, m, e, n);
      LoadAppend(s.channels, e.made, n);
      PendingTail(s.mailbox, IncIp(n));
      PendingTail(s.mailbox, DecIp(n));
    }
  }

  lemma PutConserves(s: Sys, a: Actor, c: ChanId, payload: Payload)
    requires Conserved(s) && c < |s.channels| && a !in s.half
    ensures Conserved(Put(s, a, c, payload))
  {
    var t := Put(s, a, c, payload);
    forall n: string ensures ConservedAt(t, n) {
      assert ConservedAt(s, n);
      LoadUpdate(s.channels, c, t.channels[c], n);
      if s.channels[c].synced {
        DebtAdd(s.half, a, t.half[a], IncIp(n));
        DebtAdd(s.half, a, t.half[a], DecIp(n));
      }
    }
  }

  lemma PullConserves(s: Sys, a: Actor, c: ChanId)
    requires Conserved(s) && c < |s.channels| && s.channels[c].queue != [] && a !in s.half
    ensures Conserved(Pull(s, a, c))
  {
    var t := Pull(s, a, c);
    forall n: string ensures ConservedAt(t, n) {
      assert ConservedAt(s, n);
      LoadUpdate(s.channels, c, t.channels[c], n);
      if t.half != s.half {
        DebtAdd(s.half, a, t.half[a], IncIp(n));
        DebtAdd(s.half, a, t.half[a], DecIp(n));
      }
    }
  }

  lemma AnnounceConserves(s: Sys, a: Actor)
    requires Conserved(s) && a in s.half
    ensures Conserved(Next(s, Announce(a)))
  {
    var t := Next(s, Announce(a));
    forall n: string ensures ConservedAt(t, n) {
      assert ConservedAt(s, n);
      DebtPaid(s.half, a, IncIp(n));
      DebtPaid(s.half, a, DecIp(n));
    }
  }

  lemma WaitConserves(s: Sys, t: Sys, a: Actor, w: Wait)
    requires Conserved(s) && a !in s.reading && w.chan < |s.channels| && w.dest == Dest(s.channels[w.chan])
    requires t.sched == s.sched && t.gone == s.gone && t.channels == s.channels && t.half == s.half
    requires t.reading == s.reading[a := w]
    requires t.mailbox == if w.dest.Some? then s.mailbox + [DecIp(w.dest.value)] else s.mailbox
    ensures Conserved(t)
  {
    forall n: string ensures ConservedAt(t, n) {
      assert ConservedAt(s, n);
      ReaderAdd(s.reading, a, w, n);
    }
  }

  lemma RecvPostConserves(s: Sys, a: Actor, c: ChanId)
    requires Conserved(s) && Enabled(s, RecvPost(a, c))
    ensures Conserved(Next(s, RecvPost(a, c)))
  {
    WaitConserves(s, Next(s, RecvPost(a, c)), a, Wait(c, Dest(s.channels[c])));
  }

  lemma RecvGetConserves(s: Sys, a: Actor)
    requires Conserved(s) && Enabled(s, RecvGet(a))
    ensures Conserved(Next(s, RecvGet(a)))
  {
    var t := Next(s, RecvGet(a));
    var c := s.reading[a].chan;
    forall n: string ensures ConservedAt(t, n) {
      assert ConservedAt(s, n);
      ReaderServed(s.reading, a, n);
      LoadUpdate(s.channels, c, t.channels[c], n);
    }
  }

  lemma PostConserves(s: Sys, t: Sys, posted: seq<Msg>)
    requires Conserved(s) && t.sched == s.sched && t.gone == s.gone && t.mailbox == s.mailbox + posted
    requires t.channels == s.channels && t.half == s.half && t.reading == s.reading
    requires forall m :: m in posted ==> !IsToken(m)
    ensures Conserved(t)
  {
    forall n: string ensures ConservedAt(t, n) {
      assert ConservedAt(s, n);
      assert IncIp(n) !in posted && DecIp(n) !in posted;
    }
  }

  lemma MoveConserves(s: Sys, step: Step)
    requires Conserved(s) && Enabled(s, step) && (step.LoopPut? || step.Push? || step.TryRecv?)
    requires s.pc.Sending? ==> Loop !in s.half
    ensures Conserved(Next(s, step))
  {
    if step.LoopPut? {
      PutConserves(s, Loop, s.pc.chan, s.pc.payload);
      var t := Put(s, Loop, s.pc.chan, s.pc.payload);
      assert forall n: string :: ConservedAt(t, n) ==> ConservedAt(t.(pc := Ready), n);
    } else if step.Push? {
      PutConserves(s, step.actor, step.chan, step.payload);
    } else {
      PullConserves(s, step.actor, step.chan);
    }
  }

  lemma AnnounceOrRecvConserves(s: Sys, step: Step)
    requires Conserved(s) && Enabled(s, step) && (step.Announce? || step.RecvPost? || step.RecvGet?)
    ensures Conserved(Next(s, step))
  {
    if step.Announce? {
      AnnounceConserves(s, step.actor);
    } else if step.RecvPost? {
      RecvPostConserves(s, step.actor, step.chan);
    } else {
      RecvGetConserves(s, step.actor);
    }
  }

  lemma QuietConserves(s: Sys, step: Step)
    requires Conserved(s) && Enabled(s, step) && (step.Poll? || step.Finish? || step.Post?)
    ensures Conserved(Next(s, step))
  {
    PostConserves(s, Next(s, step), Posted(s, step));
  }

  /** The loop puts packets of its own only while it owes nothing. */
  lemma StepConserves(s: Sys, step: Step)
    requires Conserved(s) && Enabled(s, step) && !step.Take?
    requires s.pc.Sending? ==> Loop !in s.half
    ensures Conserved(Next(s, step))
  {
    if step.LoopPut? || step.Push? || step.TryRecv? {
      MoveConserves(s, step);
    } else if step.Announce? || step.RecvPost? || step.RecvGet? {
      AnnounceOrRecvConserves(s, step);
    } else {
      QuietConserves(s, step);
    }
  }
}
