// Packets come out of a Racket port in the order in which they went in, over every run; and the packets that count as
// swallowed are the ones #f that a try-recv took.
module RktFifo {
  import opened Wrappers
  import opened RktAgent
  import opened RktScheduler
  import opened RktSystem
  import opened RktHandlers

  /** The packets put into channel `c` by the steps, by the loop for msg-mesg or by a port-send. */
  function Pushed(s: Sys, steps: seq<Step>, c: ChanId): seq<Payload>
    requires Legal(s, steps)
    decreases |steps|
  {
    if steps == [] then [] else PushedIn(s, steps[0], c) + Pushed(Next(s, steps[0]), steps[1..], c)
  }

  function PushedIn(s: Sys, step: Step, c: ChanId): seq<Payload> {
    if step.Push? && step.chan == c then [step.payload]
    else if step.LoopPut? && s.pc.Sending? && s.pc.chan == c then [s.pc.payload]
    else []
  }

  /** The packets taken out of it. */
  function Taken(s: Sys, steps: seq<Step>, c: ChanId): seq<Payload>
    requires Legal(s, steps)
    decreases |steps|
  {
    if steps == [] then [] else TakenIn(s, steps[0], c) + Taken(Next(s, steps[0]), steps[1..], c)
  }

  function TakenIn(s: Sys, step: Step, c: ChanId): seq<Payload>
    requires Enabled(s, step)
  {
    if (step.TryRecv? && step.chan == c) || (step.RecvGet? && s.reading[step.actor].chan == c) then [s.channels[c].queue[0]] else []
  }

  /** How many of them a try-recv took for an empty channel. */
  function Mute(s: Sys, steps: seq<Step>, c: ChanId): nat
    requires Legal(s, steps)
    decreases |steps|
  {
    if steps == [] then 0 else MuteIn(s, steps[0], c) + Mute(Next(s, steps[0]), steps[1..], c)
  }

  function MuteIn(s: Sys, step: Step, c: ChanId): nat
    requires Enabled(s, step)
  {
    if step.TryRecv? && step.chan == c && s.channels[c].synced && s.channels[c].queue[0] == False then 1 else 0
  }

  function Queue(s: Sys, c: ChanId): seq<Payload> {
    if c < |s.channels| then s.channels[c].queue else []
  }

  function Swallowed(s: Sys, c: ChanId): nat {
    if c < |s.channels| then s.channels[c].swallowed else 0
  }

  ghost predicate Moves(s: Sys, t: Sys, c: ChanId, pushed: seq<Payload>, taken: seq<Payload>, mute: nat) {
    && |s.channels| <= |t.channels|
    && taken + Queue(t, c) == Queue(s, c) + pushed
    && Swallowed(t, c) == Swallowed(s, c) + mute
  }

  lemma NewChannelsEmpty(s: Sys, order: seq<string>)
    requires Enabled(s, Take(order))
    ensures var t := TakeOne(s, order);
      && s.channels <= t.channels
      && forall c :: |s.channels| <= c < |t.channels| ==> t.channels[c].queue == [] && t.channels[c].swallowed == 0
  {
    var e := Handle(s.sched, |s.channels|, s.mailbox[0], order);
    if e.Effect? {
      HandleCounts(s.sched, |s.channels|, s.mailbox[0], order);
      AppendEmpty(s.channels, e.made);
    }
  }

  lemma AppendEmpty(cs: seq<Chan>, made: seq<Chan>)
    requires forall c :: c in made ==> c.queue == [] && c.swallowed == 0
    ensures forall c :: |cs| <= c < |cs + made| ==> (cs + made)[c].queue == [] && (cs + made)[c].swallowed == 0
  {
    forall c | |cs| <= c < |cs + made| ensures (cs + made)[c].queue == [] && (cs + made)[c].swallowed == 0 {
      assert (cs + made)[c] in made;
    }
  }

  lemma StillMoves(s: Sys, t: Sys, c: ChanId)
    requires |s.channels| <= |t.channels|
    requires c < |s.channels| ==> t.channels[c] == s.channels[c]
    requires |s.channels| <= c < |t.channels| ==> t.channels[c].queue == [] && t.channels[c].swallowed == 0
    ensures Moves(s, t, c, [], [], 0)
  {
    assert [] + Queue(t, c) == Queue(t, c) && Queue(s, c) + [] == Queue(s, c);
  }

  lemma PutMoves(s: Sys, step: Step, c: ChanId)
    requires Enabled(s, step) && (step.Push? || step.LoopPut?)
    ensures Moves(s, Next(s, step), c, PushedIn(s, step, c), [], 0)
  {
    var t := Next(s, step);
    assert [] + Queue(t, c) == Queue(t, c) && Queue(s, c) + [] == Queue(s, c);
  }

  lemma GetMoves(s: Sys, step: Step, c: ChanId)
    requires Enabled(s, step) && (step.TryRecv? || step.RecvGet?)
    ensures Moves(s, Next(s, step), c, [], TakenIn(s, step, c), MuteIn(s, step, c))
  {
    var t := Next(s, step);
    var q := s.channels[if step.TryRecv? then step.chan else s.reading[step.actor].chan].queue;
    assert q == [q[0]] + q[1..];
    assert [] + Queue(t, c) == Queue(t, c) && Queue(s, c) + [] == Queue(s, c);
  }

  lemma StepMoves(s: Sys, step: Step, c: ChanId)
    requires Enabled(s, step)
    ensures Moves(s, Next(s, step), c, PushedIn(s, step, c), TakenIn(s, step, c), MuteIn(s, step, c))
  {
    if step.Push? || step.LoopPut? {
      PutMoves(s, step, c);
    } else if step.TryRecv? || step.RecvGet? {
      GetMoves(s, step, c);
    } else {
      if step.Take? {
        NewChannelsEmpty(s, step.order);
      }
      StillMoves(s, Next(s, step), c);
    }
  }

  lemma Follow(a: seq<Payload>, b: seq<Payload>, d: seq<Payload>, r1: seq<Payload>, r2: seq<Payload>, p1: seq<Payload>, p2: seq<Payload>)
    requires r1 + b == a + p1 && r2 + d == b + p2
    ensures (r1 + r2) + d == a + (p1 + p2)
  {
    assert (r1 + r2) + d == r1 + (r2 + d) == (r1 + b) + p2 == a + (p1 + p2);
  }

  lemma {:induction false} RunMoves(s: Sys, steps: seq<Step>, c: ChanId)
    requires Legal(s, steps)
    ensures Moves(s, After(s, steps), c, Pushed(s, steps, c), Taken(s, steps, c), Mute(s, steps, c))
    decreases |steps|
  {
    if steps == [] {
      StillMoves(s, s, c);
    } else {
      var t, u := Next(s, steps[0]), After(s, steps);
      StepMoves(s, steps[0], c);
      RunMoves(t, steps[1..], c);
      Follow(Queue(s, c), Queue(t, c), Queue(u, c), TakenIn(s, steps[0], c), Taken(t, steps[1..], c),
             PushedIn(s, steps[0], c), Pushed(t, steps[1..], c));
    }
  }

  /** First in, first out: what was taken from a channel, followed by what is queued, is what was put in; and exactly the
      packets #f that a try-recv took from a synced channel count as swallowed. */
  lemma {:induction false} InOrder(steps: seq<Step>, c: ChanId)
    requires Legal(Init, steps) && c < |After(Init, steps).channels|
    ensures var ch := After(Init, steps).channels[c];
      Taken(Init, steps, c) + ch.queue == Pushed(Init, steps, c) && ch.swallowed == Mute(Init, steps, c)
  {
    RunMoves(Init, steps, c);
    assert [] + Pushed(Init, steps, c) == Pushed(Init, steps, c);
  }

  // ------------------------------------------------------------------ when a put or a get returns

  /** A thread that runs an agent, or one outside before msg-stop, that is not in the middle of a port operation. */
  predicate Acts(s: Sys, a: Actor) {
    a !in s.half && a !in s.reading && !a.Loop? && (a.Worker? ==> a.job in s.jobs) && (a.Outside? ==> !s.stopped)
  }

  ghost predicate Bounded(s: Sys) {
    forall c :: 0 <= c < |s.channels| ==> |s.channels[c].queue| <= 30
  }

  lemma StepBounded(s: Sys, step: Step)
    requires Bounded(s) && Enabled(s, step)
    ensures Bounded(Next(s, step))
  {
    var t := Next(s, step);
    forall c | 0 <= c < |t.channels| ensures |t.channels[c].queue| <= 30 {
      StepMoves(s, step, c);
      assert |TakenIn(s, step, c)| + |t.channels[c].queue| == |Queue(s, c)| + |PushedIn(s, step, c)|;
    }
  }

  lemma {:induction false} RunBounded(s: Sys, steps: seq<Step>)
    requires Bounded(s) && Legal(s, steps)
    ensures Bounded(After(s, steps))
    decreases |steps|
  {
    if steps != [] {
      StepBounded(s, steps[0]);
      RunBounded(Next(s, steps[0]), steps[1..]);
    }
  }

  /** A channel never holds more than 30 packets; a put of a thread that may act goes through exactly if there are fewer, a
      try-recv exactly if there is one, and a receive from a port that is no option port can always be begun. */
  lemma {:induction false} GoesThroughIff(steps: seq<Step>, a: Actor, c: ChanId, p: Payload)
    requires Legal(Init, steps) && c < |After(Init, steps).channels| && Acts(After(Init, steps), a)
    ensures var s := After(Init, steps); var n := |s.channels[c].queue|;
      && n <= 30 && (Enabled(s, Push(a, c, p)) <==> n < 30) && (Enabled(s, TryRecv(a, c)) <==> n > 0)
      && (Enabled(s, RecvPost(a, c)) <==> !s.channels[c].option)
  {
    RunBounded(Init, steps);
  }
}
