// A run of the Rust scheduler that never stops: an agent without ports is started once, and its run fails.
module Stuck {
  import opened Wrappers
  import opened Interior
  import opened System
  import opened Answers
  import opened Runs
  import Exterior

  const NOTHING := Sort([], [], [], [], None, None)
  const BOX := NewBox(NOTHING)
  const HOME := CompState(Some(BOX), "a", false, false, [], 0)
  const OUT := CompState(None, "a", true, true, [], 0)
  const BACK := CompState(Some(BOX), "a", true, true, [], 0)

  /** The states of the run differ in these parts only. */
  function At(sched: Sched, mailbox: seq<CompMsg>, jobs: map<nat, Job>, nextJob: nat, extDone: bool, received: map<Id, seq<Edit>>): Sys {
    Sys(sched, Exterior.AddNode(Init.ext, "a", NOTHING, 0).0, mailbox, NodeChannels(0, NOTHING), jobs, nextJob, map[],
        extDone, false, false, map[0 := NOTHING], received)
  }

  function S1(): Sys { At(InitSched, [NewAgent(0, "a", BOX)], map[], 0, false, map[]) }
  function S2(): Sys { At(InitSched, [NewAgent(0, "a", BOX), Start(0)], map[], 0, false, map[]) }
  function S3(): Sys { At(Sched(map[0 := HOME], 0, false), [Start(0)], map[], 0, false, map[0 := []]) }
  function S4(): Sys { At(Sched(map[0 := OUT], 1, false), [], map[0 := Job(0, BOX)], 1, false, map[0 := []]) }
  function S5(): Sys { At(Sched(map[0 := OUT], 1, false), [RunEnd(0, BOX, Failed)], map[], 1, false, map[0 := []]) }
  function S6(): Sys { At(Sched(map[0 := BACK], 1, false), [], map[], 1, false, map[0 := []]) }
  function S7(): Sys { At(Sched(map[0 := BACK], 1, false), [HaltState], map[], 1, true, map[0 := []]) }
  function S8(): Sys { At(Sched(map[0 := BACK], 1, true), [], map[], 1, true, map[0 := []]) }

  lemma Created()
    ensures Enabled(Init, AddNode("a", NOTHING)) && Next(Init, AddNode("a", NOTHING)) == S1()
  {
    assert Init.channels + NodeChannels(0, NOTHING) == NodeChannels(0, NOTHING);
  }

  lemma Asked()
    ensures Enabled(S1(), StartAgent("a")) && Next(S1(), StartAgent("a")) == S2()
  {
  }

  lemma Registered()
    ensures Enabled(S2(), Dispatch) && Next(S2(), Dispatch) == S3()
  {
    assert S2().mailbox[1..] + [] == [Start(0)];
  }

  lemma Launched()
    ensures Enabled(S3(), Dispatch) && Next(S3(), Dispatch) == S4()
  {
    var e := Handle(S3().sched, Start(0));
    assert e.spawned == [Job(0, BOX)] && e.spawned[1..] == [];
    assert Launch(map[], 0, e.spawned) == Launch(map[0 := Job(0, BOX)], 1, []);
    assert S3().mailbox[1..] + [] == [];
  }

  lemma Failing()
    ensures Enabled(S4(), Finish(0, Failed)) && Next(S4(), Finish(0, Failed)) == S5()
  {
    assert map[0 := Job(0, BOX)] - {0} == map[];
  }

  lemma Returned()
    ensures Enabled(S5(), Dispatch) && Next(S5(), Dispatch) == S6()
  {
    assert S5().mailbox[1..] + [] == [];
  }

  lemma Joined()
    ensures Enabled(S6(), Join) && Next(S6(), Join) == S7()
    ensures Enabled(S7(), Dispatch) && Next(S7(), Dispatch) == S8()
  {
    assert S7().mailbox[1..] + [] == [];
  }

  /** One run answers Failed; then nothing is left to do, and the loop waits for ever. */
  lemma NeverStops() returns (steps: seq<Step>)
    ensures Legal(Init, steps)
    ensures var s := After(Init, steps); s.extDone && s.jobs == map[] && s.mailbox == [] && !s.halted
    ensures LastAnswers(Init, steps, map[]) == map[0 := Failed]
    ensures forall next :: !Enabled(After(Init, steps), next)
  {
    Created();
    Asked();
    Registered();
    Launched();
    Failing();
    Returned();
    Joined();
    var none: map<Id, RunResult> := map[];
    var last: map<Id, RunResult> := map[0 := Failed];
    steps := [];
    steps := Before(S7(), Dispatch, steps, last);
    steps := Before(S6(), Join, steps, last);
    steps := Before(S5(), Dispatch, steps, last);
    steps := Before(S4(), Finish(0, Failed), steps, none);
    steps := Before(S3(), Dispatch, steps, none);
    steps := Before(S2(), Dispatch, steps, none);
    steps := Before(S1(), StartAgent("a"), steps, none);
    steps := Before(Init, AddNode("a", NOTHING), steps, none);
    StuckAfter(steps);
  }

  lemma StuckAfter(steps: seq<Step>)
    requires Legal(Init, steps)
    requires var s := After(Init, steps); s.extDone && s.jobs == map[] && s.mailbox == []
    ensures forall next :: !Enabled(After(Init, steps), next)
  {
    forall next ensures !Enabled(After(Init, steps), next) {
      StopsIffFinished(steps, next);
    }
  }

  lemma Before(s: Sys, step: Step, rest: seq<Step>, last: map<Id, RunResult>) returns (steps: seq<Step>)
    requires Enabled(s, step) && Legal(Next(s, step), rest)
    ensures Legal(s, steps) && After(s, steps) == After(Next(s, step), rest)
    ensures LastAnswers(s, steps, last) == LastAnswers(Next(s, step), rest, Note(last, s, step))
  {
    steps := [step] + rest;
    Prepend(s, step, rest, last);
  }
}
