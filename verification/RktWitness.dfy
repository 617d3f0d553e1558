// Runs of the Racket runtime that go wrong: a packet #f is lost, because a try-recv takes it for an empty channel;
// and the loop dies on the token of an agent that was removed while the token was under way.
module RktWitness {
  import opened Wrappers
  import opened RktAgent
  import opened RktScheduler
  import opened RktSystem
  import opened RktRuns

  const SENDER := Outside(0)
  const READER := OptAgent(["in"], [], [], [])
  const AGENT := AgentState(MakeAgent(READER, 0), 0, false)

  function Chans(queue: seq<Payload>, swallowed: nat): seq<Chan> {
    [MakePort("acc", "a"), MakePort("option", "a"), Chan("a", true, false, queue, swallowed)]
  }

  function At(agents: map<string, AgentState>, mailbox: seq<Msg>, channels: seq<Chan>, half: map<Actor, Msg>): Sys {
    Sys(Sched(agents, 0, false), Ready, mailbox, channels, map[], 0, half, map[], false, false, false, {"a"}, map[])
  }

  function S1(): Sys { At(map[], [AddAgent("a", READER)], [], map[]) }
  function S2(): Sys { At(map["a" := AGENT], [], Chans([], 0), map[]) }
  function S3(): Sys { At(map["a" := AGENT], [], Chans([False], 0), map[SENDER := IncIp("a")]) }
  function S4(): Sys { At(map["a" := AGENT], [IncIp("a")], Chans([False], 0), map[]) }
  function S5(): Sys { At(map["a" := AGENT], [IncIp("a")], Chans([], 1), map[]) }

  lemma Added()
    ensures Enabled(Init, Post(AddAgent("a", READER))) && Next(Init, Post(AddAgent("a", READER))) == S1()
    ensures Enabled(S1(), Take([])) && Next(S1(), Take([])) == S2()
  {
    assert Init.mailbox + [AddAgent("a", READER)] == [AddAgent("a", READER)];
    assert Inputs(READER) == ["acc", "option", "in"];
    assert |"in"| == 2 && |"acc"| == 3 && |"option"| == 6;
    assert MakePort("in", "a") == Chan("a", true, false, [], 0);
    assert [] + InChannels(READER, "a") == Chans([], 0);
    assert S1().mailbox[1..] == [];
  }

  lemma Sent()
    ensures Enabled(S2(), Push(SENDER, 2, False)) && Next(S2(), Push(SENDER, 2, False)) == S3()
    ensures Enabled(S3(), Announce(SENDER)) && Next(S3(), Announce(SENDER)) == S4()
  {
    var none: seq<Payload> := [];
    assert none + [False] == [False];
    assert Chans([], 0)[2 := Chans([False], 0)[2]] == Chans([False], 0);
    assert map[SENDER := IncIp("a")] - {SENDER} == map[];
    assert S3().mailbox + [IncIp("a")] == [IncIp("a")];
  }

  // ------------------------------------------------------------------ a packet is lost

  lemma Taken()
    ensures Enabled(S4(), TryRecv(SENDER, 2)) && Next(S4(), TryRecv(SENDER, 2)) == S5()
  {
    assert [False][1..] == [];
    assert Chans([False], 0)[2 := Chans([], 1)[2]] == Chans([], 1);
  }

  /** The run is legal, and the packet is gone without the dec-ip that would balance its inc-ip. */
  lemma PacketLost() returns (steps: seq<Step>)
    ensures Legal(Init, steps)
    ensures var s := After(Init, steps); |s.channels| == 3 && s.channels[2].synced && s.channels[2].swallowed == 1 && !s.crashed
    ensures var s := After(Init, steps); s.channels[2].queue == [] && s.half == map[] && s.mailbox == [IncIp("a")]
  {
    Added();
    Sent();
    Taken();
    steps := [];
    steps := Before(S4(), TryRecv(SENDER, 2), steps);
    steps := Before(S3(), Announce(SENDER), steps);
    steps := Before(S2(), Push(SENDER, 2, False), steps);
    steps := Before(S1(), Take([]), steps);
    steps := Before(Init, Post(AddAgent("a", READER)), steps);
  }

  // ------------------------------------------------------------------ the loop dies

  function R1(): Sys { S3().(mailbox := [RemoveAgent("a")]) }
  function R2(): Sys { At(map[], [], Chans([False], 0), map[SENDER := IncIp("a")]).(gone := map["a" := 0]) }
  function R3(): Sys { At(map[], [IncIp("a")], Chans([False], 0), map[]).(gone := map["a" := 0]) }
  function R4(): Sys { At(map[], [], Chans([False], 0), map[]).(gone := map["a" := 0], crashed := true) }

  lemma Removed()
    ensures Enabled(S3(), Post(RemoveAgent("a"))) && Next(S3(), Post(RemoveAgent("a"))) == R1()
    ensures Enabled(R1(), Take(["a"])) && Next(R1(), Take(["a"])) == R2()
  {
    assert S3().mailbox + [RemoveAgent("a")] == [RemoveAgent("a")];
    assert R1().mailbox[1..] == [];
    assert map["a" := AGENT] - {"a"} == map[];
    assert Chans([False], 0) + [] == Chans([False], 0);
  }

  lemma Died()
    ensures Enabled(R2(), Announce(SENDER)) && Next(R2(), Announce(SENDER)) == R3()
    ensures Enabled(R3(), Take([])) && Next(R3(), Take([])) == R4()
  {
    assert map[SENDER := IncIp("a")] - {SENDER} == map[];
    assert R2().mailbox + [IncIp("a")] == [IncIp("a")];
    assert R3().mailbox[1..] == [];
  }

  /** The run is legal: a packet is put, its agent removed while idle, and then the packet announced. */
  lemma LoopDies() returns (steps: seq<Step>)
    ensures Legal(Init, steps) && After(Init, steps).crashed
    ensures var s := After(Init, steps); s.gone == map["a" := 0] && s.mailbox == []
  {
    Added();
    Sent();
    Removed();
    Died();
    steps := [];
    steps := Before(R3(), Take([]), steps);
    steps := Before(R2(), Announce(SENDER), steps);
    steps := Before(R1(), Take(["a"]), steps);
    steps := Before(S3(), Post(RemoveAgent("a")), steps);
    steps := Before(S2(), Push(SENDER, 2, False), steps);
    steps := Before(S1(), Take([]), steps);
    steps := Before(Init, Post(AddAgent("a", READER)), steps);
  }

  lemma Before(s: Sys, step: Step, rest: seq<Step>) returns (steps: seq<Step>)
    requires Enabled(s, step) && Legal(Next(s, step), rest)
    ensures Legal(s, steps) && After(s, steps) == After(Next(s, step), rest)
  {
    steps := [step] + rest;
    assert steps[1..] == rest;
  }
}
