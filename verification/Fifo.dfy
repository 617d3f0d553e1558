// Packets come out of a port in the order in which they went in, over every run: none is lost but those still queued
// when a receiver is replaced, none is made up or received twice.
module Fifo {
  import opened Wrappers
  import opened Interior
  import opened System
  import opened Ordering
  import Exterior

  /** The packets put into channel `c` by the steps, in order. */
  function Pushed(steps: seq<Step>, c: ChanId): seq<Packet> {
    if steps == [] then [] else PushedIn(steps[0], c) + Pushed(steps[1..], c)
  }

  function PushedIn(step: Step, c: ChanId): seq<Packet> {
    if step.Push? && step.chan == c then [step.packet] else []
  }

  /** The packets that the receives from `c` returned, in order. */
  function Received(s: Sys, steps: seq<Step>, c: ChanId): seq<Packet>
    requires Legal(s, steps)
    decreases |steps|
  {
    if steps == [] then [] else ReceivedIn(s, steps[0], c) + Received(Next(s, steps[0]), steps[1..], c)
  }

  function ReceivedIn(s: Sys, step: Step, c: ChanId): seq<Packet>
    requires Enabled(s, step)
  {
    if step.Pop? && step.chan == c then [s.channels[c].queue[0]] else []
  }

  function Queue(s: Sys, c: ChanId): seq<Packet> {
    if c < |s.channels| then s.channels[c].queue else []
  }

  function Lost(s: Sys, c: ChanId): nat {
    if c < |s.channels| then s.channels[c].lost else 0
  }

  /** The receiver has been dropped. */
  predicate Dead(s: Sys, c: ChanId) {
    c < |s.channels| && !s.channels[c].live
  }

  // ------------------------------------------------------------------ one step

  lemma {:induction false} DropAllEach(cs: seq<Channel>, ids: seq<ChanId>, c: ChanId)
    requires c < |cs|
    ensures DropAll(cs, ids)[c] == cs[c] || DropAll(cs, ids)[c] == Drop(cs[c])
    decreases |ids|
  {
    if ids != [] {
      DropAllEach(if ids[0] < |cs| then cs[ids[0] := Drop(cs[ids[0]])] else cs, ids[1..], c);
    }
  }

  /** From s to t these packets were put into and received from a channel, and the rest stays queued; unless its receiver
      was dropped, and then what was queued is lost. */
  ghost predicate Moves(s: Sys, t: Sys, c: ChanId, pushed: seq<Packet>, received: seq<Packet>) {
    && |s.channels| <= |t.channels|
    && received + Queue(t, c) <= Queue(s, c) + pushed
    && |Queue(s, c)| + |pushed| + Lost(s, c) == |received| + |Queue(t, c)| + Lost(t, c)
    && (!Dead(t, c) ==> Lost(t, c) == Lost(s, c))
    && (Dead(s, c) ==> Dead(t, c) && pushed == [] && received == [] && Queue(t, c) == Queue(s, c))
  }

  lemma StillMoves(s: Sys, t: Sys, c: ChanId)
    requires |s.channels| <= |t.channels|
    requires c < |s.channels| ==> t.channels[c] == s.channels[c] || t.channels[c] == Drop(s.channels[c])
    requires Dead(s, c) ==> Queue(s, c) == []
    requires |s.channels| <= c < |t.channels| ==> t.channels[c].queue == [] && t.channels[c].lost == 0
    ensures Moves(s, t, c, [], [])
  {
    assert [] + Queue(t, c) == Queue(t, c) && Queue(s, c) + [] == Queue(s, c);
  }

  lemma DispatchMoves(s: Sys, c: ChanId)
    requires Enabled(s, Dispatch) && (Dead(s, c) ==> Queue(s, c) == [])
    ensures Moves(s, TakeOne(s), c, [], [])
  {
    if s.mailbox[0] != Halt && Handle(s.sched, s.mailbox[0]).status != Panicked && c < |s.channels| {
      DropAllEach(s.channels, Handle(s.sched, s.mailbox[0]).dropped, c);
    }
    StillMoves(s, TakeOne(s), c);
  }

  lemma PushMoves(s: Sys, step: Step, c: ChanId)
    requires Enabled(s, step) && (step.Push? || step.Pop?)
    ensures Moves(s, Next(s, step), c, PushedIn(step, c), ReceivedIn(s, step, c))
  {
    var q := s.channels[step.chan].queue;
    if step.Pop? {
      assert q == [q[0]] + q[1..];
    }
    assert Next(s, step).channels == s.channels[step.chan := Next(s, step).channels[step.chan]];
  }

  lemma StepMoves(s: Sys, step: Step, c: ChanId)
    requires Enabled(s, step) && (Dead(s, c) ==> Queue(s, c) == [])
    ensures Moves(s, Next(s, step), c, PushedIn(step, c), ReceivedIn(s, step, c))
  {
    if step.Dispatch? {
      DispatchMoves(s, c);
    } else if step.Push? || step.Pop? {
      PushMoves(s, step, c);
    } else {
      StepOpens(s, step);
      StillMoves(s, Next(s, step), c);
    }
  }

  /** Channels are only added, and empty. */
  predicate Opens(s: Sys, t: Sys) {
    && s.channels <= t.channels
    && forall c :: |s.channels| <= c < |t.channels| ==> t.channels[c].queue == [] && t.channels[c].lost == 0
  }

  lemma NodeOpens(s: Sys, step: Step)
    requires Enabled(s, step) && step.AddNode?
    ensures Opens(s, Next(s, step))
  {
  }

  lemma ElementOpens(s: Sys, step: Step)
    requires Enabled(s, step) && (step.AddElement? || step.SoftAddElement?)
    ensures Opens(s, Next(s, step))
  {
  }

  lemma StepOpens(s: Sys, step: Step)
    requires Enabled(s, step) && !step.Dispatch? && !step.Push? && !step.Pop?
    ensures Opens(s, Next(s, step))
  {
    if step.AddNode? {
      NodeOpens(s, step);
    } else if step.AddElement? || step.SoftAddElement? {
      ElementOpens(s, step);
    }
  }

  lemma StepDead(s: Sys, step: Step, c: ChanId)
    requires Enabled(s, step) && (Dead(s, c) ==> Queue(s, c) == [])
    ensures Dead(Next(s, step), c) ==> Queue(Next(s, step), c) == []
  {
    if step.Dispatch? {
      if s.mailbox[0] != Halt && Handle(s.sched, s.mailbox[0]).status != Panicked && c < |s.channels| {
        DropAllEach(s.channels, Handle(s.sched, s.mailbox[0]).dropped, c);
      }
    } else {
      StepMoves(s, step, c);
    }
  }

  // ------------------------------------------------------------------ runs

  lemma MovesTwice(s: Sys, t: Sys, u: Sys, c: ChanId, p1: seq<Packet>, r1: seq<Packet>, p2: seq<Packet>, r2: seq<Packet>)
    requires Moves(s, t, c, p1, r1) && Moves(t, u, c, p2, r2)
    ensures Moves(s, u, c, p1 + p2, r1 + r2)
  {
    if Dead(t, c) {
      assert p1 + p2 == p1 && r1 + r2 == r1;
    } else {
      Follow(r1, r2, Queue(s, c), Queue(t, c), Queue(u, c), p1, p2);
    }
  }

  lemma Follow(r1: seq<Packet>, r2: seq<Packet>, a: seq<Packet>, b: seq<Packet>, d: seq<Packet>, p1: seq<Packet>, p2: seq<Packet>)
    requires r1 + b <= a + p1 && |r1 + b| == |a + p1| && r2 + d <= b + p2
    ensures (r1 + r2) + d <= a + (p1 + p2)
  {
    assert r1 + b == a + p1;
    assert a + (p1 + p2) == (r1 + b) + p2 == r1 + (b + p2);
    assert (r1 + r2) + d == r1 + (r2 + d);
  }

  lemma {:induction false} RunMoves(s: Sys, steps: seq<Step>, c: ChanId)
    requires Legal(s, steps) && (Dead(s, c) ==> Queue(s, c) == [])
    ensures Moves(s, After(s, steps), c, Pushed(steps, c), Received(s, steps, c))
    decreases |steps|
  {
    if steps == [] {
      StillMoves(s, s, c);
    } else {
      var t := Next(s, steps[0]);
      StepMoves(s, steps[0], c);
      StepDead(s, steps[0], c);
      RunMoves(t, steps[1..], c);
      MovesTwice(s, t, After(s, steps), c, PushedIn(steps[0], c), ReceivedIn(s, steps[0], c), Pushed(steps[1..], c), Received(t, steps[1..], c));
    }
  }

  lemma Whole(got: seq<Packet>, all: seq<Packet>)
    requires got <= [] + all
    ensures got <= all && (|got| == |all| ==> got == all)
  {
    assert [] + all == all;
  }

  /** First in, first out: what was received from a channel, followed by what is queued, is what was put in, but for the
      packets lost at the end with a replaced receiver; and nothing is lost from a channel whose receiver is alive. */
  lemma {:induction false} InOrder(steps: seq<Step>, c: ChanId)
    requires Legal(Init, steps) && c < |After(Init, steps).channels|
    ensures var ch := After(Init, steps).channels[c]; var got := Received(Init, steps, c) + ch.queue;
      && got <= Pushed(steps, c) && |Pushed(steps, c)| == |got| + ch.lost
      && (ch.live ==> got == Pushed(steps, c))
  {
    RunMoves(Init, steps, c);
    Whole(Received(Init, steps, c) + Queue(After(Init, steps), c), Pushed(steps, c));
  }

  // ------------------------------------------------------------------ when a send or a receive returns

  /** A thread that runs an agent, or one outside before stopping was asked for, that owes no announcement. */
  predicate Acts(s: Sys, a: Actor) {
    a !in s.half && (a.Worker? ==> a.job in s.jobs) && (a.Outside? ==> !s.extDone)
  }

  ghost predicate Bounded(s: Sys) {
    forall c :: 0 <= c < |s.channels| ==> |s.channels[c].queue| <= 25 && (Dead(s, c) ==> Queue(s, c) == [])
  }

  lemma StepBounded(s: Sys, step: Step)
    requires Bounded(s) && Enabled(s, step)
    ensures Bounded(Next(s, step))
  {
    var t := Next(s, step);
    forall c | 0 <= c < |t.channels| ensures |t.channels[c].queue| <= 25 && (Dead(t, c) ==> Queue(t, c) == []) {
      StepMoves(s, step, c);
      StepDead(s, step, c);
      assert |ReceivedIn(s, step, c)| + |Queue(t, c)| <= |Queue(s, c)| + |PushedIn(step, c)|;
    }
  }

  lemma {:induction false} RunBounded(s: Sys, steps: seq<Step>)
    requires Bounded(s) && Legal(s, steps)
    ensures Bounded(After(s, steps))
    decreases |steps|
  {
    if steps != [] {
      StepBounded(s, steps[0]);
      RunBounded(Next(s, steps[0]), steps[1..]);
    }
  }

  /** A queue never holds more than 25 packets; a send of a thread that may act goes through exactly if there are fewer, and
      a receive exactly if there is one. */
  lemma {:induction false} GoesThroughIff(steps: seq<Step>, a: Actor, c: ChanId, p: Packet)
    requires Legal(Init, steps) && c < |After(Init, steps).channels|
    requires Acts(After(Init, steps), a) && After(Init, steps).channels[c].live
    ensures var s := After(Init, steps); var n := |s.channels[c].queue|;
      n <= 25 && (Enabled(s, Push(a, c, p)) <==> n < 25) && (Enabled(s, Pop(a, c)) <==> n > 0)
  {
    RunBounded(Init, steps);
  }
}
