// The interior scheduler: the state behind the dispatch thread and the value-level meaning of every
// message handler (modules/rs/rustfbp/src/scheduler.rs). The class in SchedState.dfy is proved against
// these functions, and System.dfy runs them against mailboxes, ports and jobs.
module Interior {
  import opened Wrappers

  type Id = nat
  type ChanId = nat

  /** One declared port of an agent sort with the schema of its messages. */
  datatype Decl = Decl(name: string, schema: string)

  /** What the `agent!` macro records about an agent: its ports and their schemas. */
  datatype Sort = Sort(
    inputs: seq<Decl>, inarr: seq<Decl>, outputs: seq<Decl>, outarr: seq<Decl>,
    option: Option<string>, accumulator: Option<string>)

  function Lookup(ds: seq<Decl>, name: string): (r: Option<string>)
    ensures r.Some? <==> exists i :: 0 <= i < |ds| && ds[i].name == name
  {
    if ds == [] then None
    else if ds[0].name == name then Some(ds[0].schema)
    else
      var r := Lookup(ds[1..], name);
      assert forall i :: 1 <= i < |ds| ==> ds[i] == ds[1..][i - 1];
      assert r.Some? ==> exists i :: 1 <= i < |ds| && ds[i].name == name by {
        if r.Some? {
          var k :| 0 <= k < |ds[1..]| && ds[1..][k].name == name;
          assert ds[k + 1].name == name;
        }
      }
      r
  }

  predicate Declares(ds: seq<Decl>, name: string) {
    Lookup(ds, name).Some?
  }

  /** A boxed agent, reduced to its sort and the port tables that edits change. */
  datatype Box = Box(
    sort: Sort,
    output: map<string, ChanId>,
    outarr: map<(string, string), ChanId>,
    inarr: map<(string, string), ChanId>)

  function NewBox(sort: Sort): Box {
    Box(sort, map[], map[], map[])
  }

  datatype Edit =
    | AddInputArrayElement(port: string, element: string, recv: ChanId)
    | ConnectOutputPort(port: string, sender: ChanId)
    | ConnectOutputArrayPort(port: string, element: string, sender: ChanId)

  /** The port named by the edit is one the agent declares. */
  predicate EditOk(sort: Sort, e: Edit) {
    match e
    case AddInputArrayElement(p, _, _) => Declares(sort.inarr, p)
    case ConnectOutputPort(p, _) => Declares(sort.outputs, p)
    case ConnectOutputArrayPort(p, _, _) => Declares(sort.outarr, p)
  }

  // ------------------------------------------------------------------ where an edit goes

  /** A place of a box that holds a channel: a simple output port, or an element of an array port. */
  datatype Slot = OutPort(port: string) | OutElement(port: string, element: string) | InElement(port: string, element: string)

  function SlotOf(e: Edit): Slot {
    match e
    case AddInputArrayElement(p, el, _) => InElement(p, el)
    case ConnectOutputPort(p, _) => OutPort(p)
    case ConnectOutputArrayPort(p, el, _) => OutElement(p, el)
  }

  /** The receiver or sender that the edit brings. */
  function ChanOf(e: Edit): ChanId {
    if e.AddInputArrayElement? then e.recv else e.sender
  }

  function InSlot(b: Box, x: Slot): Option<ChanId> {
    match x
    case OutPort(p) => if p in b.output then Some(b.output[p]) else None
    case OutElement(p, el) => if (p, el) in b.outarr then Some(b.outarr[(p, el)]) else None
    case InElement(p, el) => if (p, el) in b.inarr then Some(b.inarr[(p, el)]) else None
  }

  datatype RunResult = End | Continue | Failed

  datatype CompMsg =
    | NewAgent(id: Id, name: string, box: Box)
    | Halt
    | HaltState
    | Start(id: Id)
    | EditAgent(id: Id, edit: Edit)
    | RunEnd(id: Id, box: Box, res: RunResult)
    | Inc(id: Id)
    | Dec(id: Id)

  datatype CompState = CompState(
    comp: Option<Box>, name: string, isRun: bool, canRun: bool, editMsgs: seq<Edit>, ips: int)

  datatype Sched = Sched(agents: map<Id, CompState>, running: int, canHalt: bool)

  const InitSched := Sched(map[], 0, false)

  /** A closure handed to the thread pool. */
  datatype Job = Job(id: Id, box: Box)

  /** `expect` on a missing agent kills the dispatch thread; `try!` reports an error and keeps it. */
  datatype Status = Fine | Reported | Panicked

  /** New state, messages posted to the scheduler's own mailbox, jobs given to the pool, and the
      array receivers that were replaced and therefore dropped. */
  datatype Effect = Effect(st: Sched, posts: seq<CompMsg>, spawned: seq<Job>, dropped: seq<ChanId>, status: Status)

  function Just(st: Sched): Effect {
    Effect(st, [], [], [], Fine)
  }

  // ------------------------------------------------------------------ edits

  /** The table update of an accepted edit. */
  function Install(b: Box, e: Edit): (r: Box)
    ensures r.sort == b.sort
    ensures forall x :: InSlot(r, x) == if x == SlotOf(e) then Some(ChanOf(e)) else InSlot(b, x)
  {
    match e
    case AddInputArrayElement(p, el, r) => b.(inarr := b.inarr[(p, el) := r])
    case ConnectOutputPort(p, s) => b.(output := b.output[p := s])
    case ConnectOutputArrayPort(p, el, s) => b.(outarr := b.outarr[(p, el) := s])
  }

  /** edit_one_comp: None when the agent answers that the port does not exist. */
  function EditOne(b: Box, e: Edit): Option<Box> {
    if EditOk(b.sort, e) then Some(Install(b, e)) else None
  }

  /** The receiver an edit displaces, if any. */
  function Displaced(b: Box, e: Edit): seq<ChanId> {
    if EditOk(b.sort, e) && e.AddInputArrayElement? && (e.port, e.element) in b.inarr
    then [b.inarr[(e.port, e.element)]] else []
  }

  datatype Drained = Drained(box: Option<Box>, dropped: seq<ChanId>)

  /** Apply deferred edits in order, stopping at the first one the agent refuses. */
  function Drain(b: Box, es: seq<Edit>): Drained
    decreases |es|
  {
    if es == [] then Drained(Some(b), [])
    else match EditOne(b, es[0])
      case None => Drained(None, [])
      case Some(b') =>
        var d := Drain(b', es[1..]);
        Drained(d.box, Displaced(b, es[0]) + d.dropped)
  }

  // ------------------------------------------------------------------ handlers

  function Run(st: Sched, id: Id): Effect
    requires id in st.agents
  {
    var c := st.agents[id];
    match c.comp
    case None => Just(st)
    case Some(b) =>
      Effect(
        st.(agents := st.agents[id := c.(comp := None, isRun := true)],
            running := if c.isRun then st.running else st.running + 1),
        [], [Job(id, b)], [], Fine)
  }

  function OnInc(st: Sched, id: Id): Effect {
    if id !in st.agents then Just(st)
    else
      var c := st.agents[id];
      var c' := c.(ips := c.ips + 1);
      var st' := st.(agents := st.agents[id := c']);
      if c'.ips > 0 && c'.comp.Some? then Run(st', id) else Just(st')
  }

  function OnDec(st: Sched, id: Id): Effect {
    if id !in st.agents then Just(st)
    else
      var c := st.agents[id];
      Just(st.(agents := st.agents[id := c.(ips := c.ips - 1)]))
  }

  function OnNewAgent(st: Sched, id: Id, name: string, b: Box): Effect {
    Just(st.(agents := st.agents[id := CompState(Some(b), name, false, false, [], 0)]))
  }

  function OnStart(st: Sched, id: Id): Effect {
    if id !in st.agents then Effect(st, [], [], [], Panicked)
    else
      var c := st.agents[id];
      var st' := st.(agents := st.agents[id := c.(canRun := true)]);
      if c.comp.Some? then Run(st', id) else Just(st')
  }

  function OnHaltState(st: Sched): Effect {
    Effect(st.(canHalt := true), if st.running <= 0 then [Halt] else [], [], [], Fine)
  }

  /** The drained box is home again: settle the running count, then restart or look whether to halt. */
  function PutBack(st: Sched, id: Id, b: Box, res: RunResult): Effect
    requires id in st.agents
  {
    var c := st.agents[id];
    var stop := res == End && c.isRun;
    var c' := c.(comp := Some(b), editMsgs := [], isRun := if stop then false else c.isRun);
    var st' := st.(agents := st.agents[id := c'], running := if stop then st.running - 1 else st.running);
    if c.ips > 0 then Run(st', id)
    else Effect(st', if st'.running <= 0 && st'.canHalt then [Halt] else [], [], [], Fine)
  }

  function OnRunEnd(st: Sched, id: Id, b: Box, res: RunResult): Effect {
    if id !in st.agents then Effect(st, [], [], [], Panicked)
    else
      var c := st.agents[id];
      var d := Drain(b, c.editMsgs);
      match d.box
      case None =>
        // the early return: the box is never put back
        Effect(st.(agents := st.agents[id := c.(editMsgs := [])]), [], [], d.dropped, Reported)
      case Some(b') => PutBack(st, id, b', res).(dropped := d.dropped)
  }

  function OnEdit(st: Sched, id: Id, e: Edit): Effect {
    if id !in st.agents then Effect(st, [], [], [], Panicked)
    else
      var c := st.agents[id];
      match c.comp
      case Some(b) =>
        (match EditOne(b, e)
         case None => Effect(st, [], [], [], Reported)
         case Some(b') => Effect(st.(agents := st.agents[id := c.(comp := Some(b'))]), [], [], Displaced(b, e), Fine))
      case None => Just(st.(agents := st.agents[id := c.(editMsgs := c.editMsgs + [e])]))
  }

  /** One turn of the dispatch loop for every message except Halt, which leaves the loop. */
  function Handle(st: Sched, m: CompMsg): Effect
    requires m != Halt
  {
    match m
    case NewAgent(id, name, b) => OnNewAgent(st, id, name, b)
    case HaltState => OnHaltState(st)
    case Start(id) => OnStart(st, id)
    case EditAgent(id, e) => OnEdit(st, id, e)
    case RunEnd(id, b, res) => OnRunEnd(st, id, b, res)
    case Inc(id) => OnInc(st, id)
    case Dec(id) => OnDec(st, id)
  }
}
