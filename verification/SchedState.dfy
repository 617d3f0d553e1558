// SchedState and its dispatch (modules/rs/rustfbp/src/scheduler.rs) as a class whose methods update the
// fields in place, each proved against the handler of the same name in Interior.dfy. Invariants of runs are
// proved there about those handlers, so they hold of this class.
module SchedStateClass {
  import opened Wrappers
  import opened Interior
  import opened Ownership

  class SchedState {
    var agents: map<Id, CompState>
    var running: nat
    var canHalt: bool
    var posted: seq<CompMsg>   // sent through sched_sender, oldest first
    var pool: seq<Job>         // closures given to the thread pool, oldest first
    var dropped: seq<ChanId>   // receivers displaced by edits

    function View(): Sched
      reads this
    {
      Sched(agents, running, canHalt)
    }

    /** The counter is exact, so no decrement below can underflow. */
    ghost predicate Valid()
      reads this
    {
      Counted(View())
    }

    /** The state went from `was` exactly as effect `e` says. */
    twostate predicate Did(e: Effect, status: Status)
      reads this
    {
      && View() == e.st && status == e.status
      && posted == old(posted) + e.posts
      && pool == old(pool) + e.spawned
      && dropped == old(dropped) + e.dropped
    }

    constructor ()
      ensures Valid() && View() == InitSched && posted == [] && pool == [] && dropped == []
    {
      agents, running, canHalt := map[], 0, false;
      posted, pool, dropped := [], [], [];
      new;
      assert RunningSet(agents) == {};
    }

    /** Hand the box to the pool, if it is home. */
    method RunAgent(id: Id)
      requires Valid() && id in agents
      modifies this
      ensures Valid() && Did(Run(old(View()), id), Fine)
    {
      var c := agents[id];
      if c.comp.Some? {
        var b := c.comp.value;
        c := c.(comp := None);
        if !c.isRun {
          running := running + 1;
          c := c.(isRun := true);
        }
        agents := agents[id := c];
        pool := pool + [Job(id, b)];
        CountStep(old(agents), agents, id);
      }
    }

    method IncToken(id: Id) returns (status: Status)
      requires Valid()
      modifies this
      ensures Valid() && Did(OnInc(old(View()), id), status)
    {
      var start := false;
      if id in agents {
        var c := agents[id];
        c := c.(ips := c.ips + 1);
        agents := agents[id := c];
        CountStep(old(agents), agents, id);
        start := c.ips > 0 && c.comp.Some?;
      }
      if start {
        RunAgent(id);
      }
      status := Fine;
    }

    method DecToken(id: Id) returns (status: Status)
      requires Valid()
      modifies this
      ensures Valid() && Did(OnDec(old(View()), id), status)
    {
      if id in agents {
        var c := agents[id];
        agents := agents[id := c.(ips := c.ips - 1)];
        CountStep(old(agents), agents, id);
      }
      status := Fine;
    }

    /** An id already in the table is overwritten; the count stays exact unless that agent was marked running. */
    method AddAgent(id: Id, name: string, b: Box) returns (status: Status)
      requires Valid()
      modifies this
      ensures Did(OnNewAgent(old(View()), id, name, b), status)
      ensures Valid() <==> !IsRunning(old(agents), id)
    {
      agents := agents[id := CompState(Some(b), name, false, false, [], 0)];
      CountStep(old(agents), agents, id);
      status := Fine;
    }

    method StartAgent(id: Id) returns (status: Status)
      requires Valid()
      modifies this
      ensures Valid() && Did(OnStart(old(View()), id), status)
    {
      if id !in agents {
        return Panicked;
      }
      var c := agents[id];
      agents := agents[id := c.(canRun := true)];
      CountStep(old(agents), agents, id);
      if c.comp.Some? {
        RunAgent(id);
      }
      status := Fine;
    }

    method RequestHalt() returns (status: Status)
      requires Valid()
      modifies this
      ensures Valid() && Did(OnHaltState(old(View())), status)
    {
      canHalt := true;
      if running <= 0 {
        posted := posted + [Halt];
      }
      status := Fine;
    }

    /** Apply the deferred edits one by one, stopping at the first the agent refuses. */
    method DrainEdits(b: Box, edits: seq<Edit>) returns (r: Option<Box>)
      modifies this`dropped
      ensures r == Drain(b, edits).box
      ensures dropped == old(dropped) + Drain(b, edits).dropped
    {
      var box, rest := b, edits;
      ghost var left := Drain(b, edits);
      while rest != []
        invariant left == Drain(box, rest)
        invariant left.box == Drain(b, edits).box
        invariant dropped + left.dropped == old(dropped) + Drain(b, edits).dropped
        decreases |rest|
      {
        var next := EditOne(box, rest[0]);
        if next.None? {
          return None;
        }
        ghost var cut := Displaced(box, rest[0]);
        assert left == Drained(Drain(next.value, rest[1..]).box, cut + Drain(next.value, rest[1..]).dropped);
        left := Drain(next.value, rest[1..]);
        assert dropped + (cut + left.dropped) == (dropped + cut) + left.dropped;
        dropped := dropped + Displaced(box, rest[0]);
        box, rest := next.value, rest[1..];
      }
      r := Some(box);
    }

    method ReturnBox(id: Id, b: Box, res: RunResult)
      requires Valid() && id in agents
      modifies this
      ensures Valid() && Did(PutBack(old(View()), id, b, res), Fine)
    {
      var c := agents[id];
      var mustRestart := c.ips > 0;
      if res == End && c.isRun {
        assert id in RunningSet(agents);
        running := running - 1;
        c := c.(isRun := false);
      }
      agents := agents[id := c.(editMsgs := [], comp := Some(b))];
      CountStep(old(agents), agents, id);
      if mustRestart {
        RunAgent(id);
      } else if running <= 0 && canHalt {
        posted := posted + [Halt];
      }
    }

    method EndRun(id: Id, b: Box, res: RunResult) returns (status: Status)
      requires Valid()
      modifies this
      ensures Valid() && Did(OnRunEnd(old(View()), id, b, res), status)
    {
      if id !in agents {
        return Panicked;
      }
      var c := agents[id];
      var box := DrainEdits(b, c.editMsgs);
      if box.None? {
        agents := agents[id := c.(editMsgs := [])];
        CountStep(old(agents), agents, id);
        return Reported;
      }
      ReturnBox(id, box.value, res);
      status := Fine;
    }

    method EditAgentPorts(id: Id, e: Edit) returns (status: Status)
      requires Valid()
      modifies this
      ensures Valid() && Did(OnEdit(old(View()), id, e), status)
    {
      if id !in agents {
        return Panicked;
      }
      var c := agents[id];
      if c.comp.Some? {
        var next := EditOne(c.comp.value, e);
        if next.None? {
          return Reported;
        }
        dropped := dropped + Displaced(c.comp.value, e);
        agents := agents[id := c.(comp := next)];
      } else {
        agents := agents[id := c.(editMsgs := c.editMsgs + [e])];
      }
      CountStep(old(agents), agents, id);
      status := Fine;
    }

    /** One turn of the loop in Scheduler::new; `stop` when it breaks out. */
    method Turn(m: CompMsg) returns (stop: bool, status: Status)
      requires Valid()
      modifies this
      ensures Valid() <==> !(m.NewAgent? && IsRunning(old(agents), m.id))
      ensures stop == (m == Halt)
      ensures m != Halt ==> Did(Handle(old(View()), m), status)
      ensures m == Halt ==> View() == old(View()) && posted == old(posted) && pool == old(pool) && dropped == old(dropped)
    {
      stop, status := false, Fine;
      match m
      case NewAgent(id, name, b) => status := AddAgent(id, name, b);
      case Start(id) => status := StartAgent(id);
      case Halt => stop := true;
      case HaltState => status := RequestHalt();
      case RunEnd(id, b, res) => status := EndRun(id, b, res);
      case EditAgent(id, e) => status := EditAgentPorts(id, e);
      case Inc(id) => status := IncToken(id);
      case Dec(id) => status := DecToken(id);
    }
  }
}
