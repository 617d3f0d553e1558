// The whole runtime as a step relation: the dispatch thread, the mailbox, the bounded port queues, the
// jobs of the thread pool and the threads that use the exterior API. A send pushes a packet and only then
// posts Inc; a receive pops a packet and only then posts Dec (modules/rs/rustfbp/src/ports.rs), so between
// the two an announcement is owed by the thread that moved the packet.
module System {
  import opened Wrappers
  import opened Interior
  import Exterior

  /** sync_channel(25) */
  const CAPACITY: nat := 25

  datatype Packet = Packet(action: Option<string>, payload: string)

  /** The queue shared by the senders and the one receiver of a port. `live` is false once the receiver
      has been dropped; `lost` counts the packets that were still queued then. */
  datatype Channel = Channel(owner: Id, scheduled: bool, schema: string, live: bool, queue: seq<Packet>, lost: nat)

  datatype Actor = Worker(job: nat) | Outside(thread: nat)

  datatype Sys = Sys(
    sched: Sched,
    ext: Exterior.Ext,
    mailbox: seq<CompMsg>,
    channels: seq<Channel>,
    jobs: map<nat, Job>,
    nextJob: nat,
    half: map<Actor, CompMsg>,     // announcements still owed, by thread
    extDone: bool,                 // HaltState has been posted
    halted: bool,                  // the loop has left through Halt
    panicked: bool,                // the loop died in an `expect`
    sorts: map<Id, Sort>,          // history: the sort each id was created with
    received: map<Id, seq<Edit>>)  // history: the edits each agent's id was sent, in handling order

  const Init := Sys(InitSched, Exterior.Ext(map[], 0), [], [], map[], 0, map[], false, false, false, map[], map[])

  // ------------------------------------------------------------------ channels

  function Open(owner: Id, scheduled: bool, schema: Option<string>): Channel {
    Channel(owner, scheduled, if schema.Some? then schema.value else "", true, [], 0)
  }

  /** MsgReceiver::new for the option and accumulator ports and then for each declared input. */
  function NodeChannels(id: Id, s: Sort): seq<Channel> {
    [Open(id, false, s.option), Open(id, false, s.accumulator)]
    + seq(|s.inputs|, i requires 0 <= i < |s.inputs| => Open(id, true, Some(s.inputs[i].schema)))
  }

  function Drop(c: Channel): Channel {
    c.(live := false, queue := [], lost := c.lost + |c.queue|)
  }

  function DropAll(cs: seq<Channel>, ids: seq<ChanId>): (r: seq<Channel>)
    ensures |r| == |cs|
    decreases |ids|
  {
    if ids == [] then cs
    else
      var rest := if ids[0] < |cs| then cs[ids[0] := Drop(cs[ids[0]])] else cs;
      DropAll(rest, ids[1..])
  }

  // ------------------------------------------------------------------ steps

  datatype Call =
    | Simple(compOut: string, portOut: string, compIn: string, portIn: string)
    | FromArray(compOut: string, portOut: string, elementOut: string, compIn: string, portIn: string)
    | ToArray(compOut: string, portOut: string, compIn: string, portIn: string, elementIn: string)
    | BothArrays(compOut: string, portOut: string, elementOut: string, compIn: string, portIn: string, elementIn: string)

  function ConnectMsg(x: Exterior.Ext, call: Call): Result<CompMsg, Exterior.Error> {
    match call
    case Simple(co, po, ci, pi) => Exterior.Connect(x, co, po, ci, pi)
    case FromArray(co, po, eo, ci, pi) => Exterior.ConnectArray(x, co, po, eo, ci, pi)
    case ToArray(co, po, ci, pi, ei) => Exterior.ConnectToArray(x, co, po, ci, pi, ei)
    case BothArrays(co, po, eo, ci, pi, ei) => Exterior.ConnectArrayToArray(x, co, po, eo, ci, pi, ei)
  }

  datatype Step =
    | Dispatch                                        // the loop takes one message and handles it
    | Push(actor: Actor, chan: ChanId, packet: Packet)
    | Pop(actor: Actor, chan: ChanId)
    | Announce(actor: Actor)                          // post the owed Inc or Dec
    | Finish(job: nat, res: RunResult)                // run() returned: post RunEnd
    | AddNode(name: string, sort: Sort)
    | AddElement(comp: string, port: string, element: string)
    | SoftAddElement(comp: string, port: string, element: string)
    | Connect(call: Call)
    | StartAgent(name: string)
    | Join                                            // post HaltState

  predicate MayAct(s: Sys, a: Actor) {
    match a
    case Worker(j) => j in s.jobs
    case Outside(_) => !s.extDone
  }

  predicate Enabled(s: Sys, step: Step) {
    match step
    case Dispatch => s.mailbox != [] && !s.halted && !s.panicked
    case Push(a, c, _) =>
      MayAct(s, a) && a !in s.half && c < |s.channels| && s.channels[c].live && |s.channels[c].queue| < CAPACITY
    case Pop(a, c) =>
      MayAct(s, a) && a !in s.half && c < |s.channels| && s.channels[c].live && s.channels[c].queue != []
    case Announce(a) => a in s.half
    case Finish(j, _) => j in s.jobs && Worker(j) !in s.half
    case AddNode(_, _) => !s.extDone
    case AddElement(n, p, e) => !s.extDone && Exterior.AddInputElement(s.ext, n, p, e, |s.channels|).Ok?
    case SoftAddElement(n, p, e) =>
      !s.extDone && (Exterior.HasElement(s.ext, n, p, e) || Exterior.AddInputElement(s.ext, n, p, e, |s.channels|).Ok?)
    case Connect(call) => !s.extDone && ConnectMsg(s.ext, call).Ok?
    case StartAgent(n) => !s.extDone && n in s.ext.agents
    case Join => !s.extDone && forall a :: a in s.half ==> a.Worker?
  }

  /** Register the jobs a handler gave to the pool. */
  function Launch(jobs: map<nat, Job>, next: nat, spawned: seq<Job>): map<nat, Job>
    decreases |spawned|
  {
    if spawned == [] then jobs else Launch(jobs[next := spawned[0]], next + 1, spawned[1..])
  }

  function Record(received: map<Id, seq<Edit>>, m: CompMsg): map<Id, seq<Edit>> {
    match m
    case NewAgent(id, _, _) => received[id := []]
    case EditAgent(id, e) => if id in received then received[id := received[id] + [e]] else received
    case _ => received
  }

  function TakeOne(s: Sys): Sys
    requires s.mailbox != []
  {
    var m, rest := s.mailbox[0], s.mailbox[1..];
    if m == Halt then s.(mailbox := rest, halted := true)
    else
      var e := Handle(s.sched, m);
      if e.status == Panicked then s.(mailbox := rest, panicked := true)
      else s.(sched := e.st,
              mailbox := rest + e.posts,
              channels := DropAll(s.channels, e.dropped),
              jobs := Launch(s.jobs, s.nextJob, e.spawned),
              nextJob := s.nextJob + |e.spawned|,
              received := Record(s.received, m))
  }

  function AddElementTo(s: Sys, name: string, port: string, element: string): Sys
    requires Exterior.AddInputElement(s.ext, name, port, element, |s.channels|).Ok?
  {
    var (x, m) := Exterior.AddInputElement(s.ext, name, port, element, |s.channels|).value;
    var c := s.ext.agents[name];
    s.(ext := x, mailbox := s.mailbox + [m], channels := s.channels + [Open(c.id, true, Lookup(c.sort.inarr, port))])
  }

  function Next(s: Sys, step: Step): Sys
    requires Enabled(s, step)
  {
    match step
    case Dispatch => TakeOne(s)
    case Push(a, c, p) =>
      var ch := s.channels[c];
      s.(channels := s.channels[c := ch.(queue := ch.queue + [p])],
         half := if ch.scheduled then s.half[a := Inc(ch.owner)] else s.half)
    case Pop(a, c) =>
      var ch := s.channels[c];
      s.(channels := s.channels[c := ch.(queue := ch.queue[1..])],
         half := if ch.scheduled then s.half[a := Dec(ch.owner)] else s.half)
    case Announce(a) => s.(mailbox := s.mailbox + [s.half[a]], half := s.half - {a})
    case Finish(j, res) => s.(mailbox := s.mailbox + [RunEnd(s.jobs[j].id, s.jobs[j].box, res)], jobs := s.jobs - {j})
    case AddNode(name, sort) =>
      var (x, m) := Exterior.AddNode(s.ext, name, sort, |s.channels|);
      s.(ext := x, mailbox := s.mailbox + [m],
         channels := s.channels + NodeChannels(s.ext.nextId, sort),
         sorts := s.sorts[s.ext.nextId := sort])
    case AddElement(n, p, e) => AddElementTo(s, n, p, e)
    case SoftAddElement(n, p, e) => if Exterior.HasElement(s.ext, n, p, e) then s else AddElementTo(s, n, p, e)
    case Connect(call) => s.(mailbox := s.mailbox + [ConnectMsg(s.ext, call).value])
    case StartAgent(n) => s.(mailbox := s.mailbox + [Start(s.ext.agents[n].id)])
    case Join => s.(mailbox := s.mailbox + [HaltState], extDone := true)
  }

  // ------------------------------------------------------------------ runs

  /** `steps` can be taken one after the other from `s`. */
  predicate Legal(s: Sys, steps: seq<Step>)
    decreases |steps|
  {
    steps == [] || (Enabled(s, steps[0]) && Legal(Next(s, steps[0]), steps[1..]))
  }

  function After(s: Sys, steps: seq<Step>): Sys
    requires Legal(s, steps)
    decreases |steps|
  {
    if steps == [] then s else After(Next(s, steps[0]), steps[1..])
  }
}
