// The Racket runtime as a step relation: the loop thread, its mailbox, the channels of the ports, one thread
// per running agent and the threads outside. port-send puts a packet and then posts inc-ip; port-try-recv
// gets and then posts dec-ip; port-recv posts dec-ip first and then waits for the packet
// (modules/rkt/rkt-fbp/port.rkt).
module RktSystem {
  import opened Wrappers
  import opened RktAgent
  import opened RktScheduler

  datatype Actor = Worker(job: nat) | Outside(thread: nat) | Loop

  /** Where the loop thread is: about to look at its mailbox, blocked on it, or putting the packet of a msg-mesg. */
  datatype Pc = Ready | Waiting | Sending(chan: ChanId, payload: Payload)

  /** A port-recv that has announced itself (to `dest`, if its port is synced) and not got its packet yet. */
  datatype Wait = Wait(chan: ChanId, dest: Option<string>)

  datatype Sys = Sys(
    sched: Sched,
    pc: Pc,
    mailbox: seq<Msg>,
    channels: seq<Chan>,
    jobs: map<nat, string>,
    nextJob: nat,
    half: map<Actor, Msg>,         // announcements still owed, by thread
    reading: map<Actor, Wait>,
    stopped: bool,                 // msg-stop has been posted
    exited: bool,                  // the loop has returned
    crashed: bool,                 // the loop died on a missing key
    names: set<string>,            // history: every name an agent was added under
    gone: map<string, int>)        // history: removed agents, with their last number of ips

  const Init := Sys(InitSched, Ready, [], [], map[], 0, map[], map[], false, false, false, {}, map[])

  datatype Step =
    | Poll                                                    // try-get found the mailbox empty
    | Take(order: seq<string>)                                // get a message and handle it
    | LoopPut                                                 // the put of a msg-mesg
    | Push(actor: Actor, chan: ChanId, payload: Payload)
    | TryRecv(actor: Actor, chan: ChanId)
    | Announce(actor: Actor)
    | RecvPost(actor: Actor, chan: ChanId)
    | RecvGet(actor: Actor)
    | Finish(job: nat)                                        // the agent's procedure returned or raised
    | Post(msg: Msg)

  predicate MayAct(s: Sys, a: Actor) {
    match a
    case Worker(j) => j in s.jobs
    case Outside(_) => !s.stopped
    case Loop => false
  }

  predicate Free(s: Sys, a: Actor) {
    MayAct(s, a) && a !in s.half && a !in s.reading
  }

  predicate LoopFree(s: Sys) {
    !s.exited && !s.crashed && !s.pc.Sending? && Loop !in s.half
  }

  predicate Postable(s: Sys, m: Msg) {
    && !s.stopped && !m.IncIp? && !m.DecIp? && !m.RunEnd?
    && (m.AddAgent? ==> m.name !in s.names)
    && (m.Stop? ==> forall a :: a in s.half.Keys + s.reading.Keys ==> !a.Outside?)
  }

  /** A walk of a hash table meets every key once. */
  predicate Walks(order: seq<string>, agents: map<string, AgentState>) {
    && (forall n :: n in order ==> n in agents)
    && (forall n :: n in agents ==> n in order)
    && (forall i, j :: 0 <= i < j < |order| ==> order[i] != order[j])
  }

  /** What the port tells the scheduler it moved a packet for. */
  function Dest(c: Chan): Option<string> {
    if c.synced then Some(c.owner) else None
  }

  predicate Enabled(s: Sys, step: Step) {
    match step
    case Poll => LoopFree(s) && s.pc == Ready && s.mailbox == []
    case Take(order) =>
      && LoopFree(s) && s.mailbox != []
      && Walks(order, s.sched.agents)
      && (s.mailbox[0].RemoveAgent? && s.mailbox[0].name in s.sched.agents ==> !s.sched.agents[s.mailbox[0].name].isRunning)
    case LoopPut => s.pc.Sending? && s.pc.chan < |s.channels| && |s.channels[s.pc.chan].queue| < CAPACITY
    case Push(a, c, _) => Free(s, a) && c < |s.channels| && |s.channels[c].queue| < CAPACITY
    case TryRecv(a, c) => Free(s, a) && c < |s.channels| && s.channels[c].queue != []
    case Announce(a) => a in s.half
    case RecvPost(a, c) => Free(s, a) && c < |s.channels| && !s.channels[c].option
    case RecvGet(a) => a in s.reading && s.reading[a].chan < |s.channels| && s.channels[s.reading[a].chan].queue != []
    case Finish(j) => j in s.jobs && Worker(j) !in s.half && Worker(j) !in s.reading
    case Post(m) => Postable(s, m)
  }

  function Launch(jobs: map<nat, string>, next: nat, spawned: seq<string>): map<nat, string>
    decreases |spawned|
  {
    if spawned == [] then jobs else Launch(jobs[next := spawned[0]], next + 1, spawned[1..])
  }

  function Bury(s: Sys, m: Msg): map<string, int> {
    if m.RemoveAgent? && m.name in s.sched.agents then s.gone[m.name := s.sched.agents[m.name].ips] else s.gone
  }

  function TakeOne(s: Sys, order: seq<string>): Sys
    requires s.mailbox != []
  {
    var m := s.mailbox[0];
    var e := Handle(s.sched, |s.channels|, m, order);
    if e.Crash? then s.(mailbox := s.mailbox[1..], crashed := true)
    else s.(sched := e.st,
            pc := if e.send.Some? then Sending(e.send.value.0, e.send.value.1) else Ready,
            mailbox := s.mailbox[1..],
            channels := s.channels + e.made,
            jobs := Launch(s.jobs, s.nextJob, e.spawned),
            nextJob := s.nextJob + |e.spawned|,
            gone := Bury(s, m))
  }

  function Put(s: Sys, a: Actor, c: ChanId, payload: Payload): Sys
    requires c < |s.channels|
  {
    var ch := s.channels[c];
    s.(channels := s.channels[c := ch.(queue := ch.queue + [payload])],
       half := if ch.synced then s.half[a := IncIp(ch.owner)] else s.half)
  }

  /** A packet #f is taken for an empty channel: it is gone, but nothing is announced. */
  function Pull(s: Sys, a: Actor, c: ChanId): Sys
    requires c < |s.channels| && s.channels[c].queue != []
  {
    var ch := s.channels[c];
    var mute := ch.synced && ch.queue[0] == False;
    s.(channels := s.channels[c := ch.(queue := ch.queue[1..], swallowed := if mute then ch.swallowed + 1 else ch.swallowed)],
       half := if ch.synced && !mute then s.half[a := DecIp(ch.owner)] else s.half)
  }

  function Next(s: Sys, step: Step): Sys
    requires Enabled(s, step)
  {
    match step
    case Poll => if s.sched.willStop && s.sched.running == 0 then s.(exited := true) else s.(pc := Waiting)
    case Take(order) => TakeOne(s, order)
    case LoopPut => Put(s, Loop, s.pc.chan, s.pc.payload).(pc := Ready)
    case Push(a, c, payload) => Put(s, a, c, payload)
    case TryRecv(a, c) => Pull(s, a, c)
    case Announce(a) => s.(mailbox := s.mailbox + [s.half[a]], half := s.half - {a})
    case RecvPost(a, c) =>
      var d := Dest(s.channels[c]);
      s.(mailbox := if d.Some? then s.mailbox + [DecIp(d.value)] else s.mailbox,
         reading := s.reading[a := Wait(c, d)])
    case RecvGet(a) =>
      var ch := s.channels[s.reading[a].chan];
      s.(channels := s.channels[s.reading[a].chan := ch.(queue := ch.queue[1..])], reading := s.reading - {a})
    case Finish(j) => s.(mailbox := s.mailbox + [RunEnd(s.jobs[j])], jobs := s.jobs - {j})
    case Post(m) =>
      s.(mailbox := s.mailbox + [m],
         stopped := s.stopped || m.Stop?,
         names := if m.AddAgent? then s.names + {m.name} else s.names)
  }

  predicate Legal(s: Sys, steps: seq<Step>)
    decreases |steps|
  {
    steps == [] || (Enabled(s, steps[0]) && Legal(Next(s, steps[0]), steps[1..]))
  }

  function After(s: Sys, steps: seq<Step>): Sys
    requires Legal(s, steps)
    decreases |steps|
  {
    if steps == [] then s else After(Next(s, steps[0]), steps[1..])
  }
}
