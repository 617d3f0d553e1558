// Array selections of the Racket agents are reference counts: over any sequence of handled messages the count of
// a selection is its connects minus its disconnects, and its channel stays while it exists.
module RktSelections {
  import opened Counting
  import opened Wrappers
  import opened RktAgent
  import opened RktScheduler
  import opened RktHandlers

  /** The place of a selection: agent, array port, element. */
  datatype Place = Place(agt: string, port: string, sel: string)

  function Find(st: Sched, w: Place): Option<Selection> {
    if w.agt in st.agents && w.port in st.agents[w.agt].agent.inArray && w.sel in st.agents[w.agt].agent.inArray[w.port]
    then Some(st.agents[w.agt].agent.inArray[w.port][w.sel]) else None
  }

  function Count(st: Sched, w: Place): int {
    if Find(st, w).Some? then Find(st, w).value.count else 0
  }

  /** A selection is dropped when its count would reach zero. */
  predicate Alive(st: Sched, w: Place) {
    w.agt in st.agents && (Find(st, w).Some? <==> Count(st, w) >= 1)
  }

  predicate Joins(m: Msg, w: Place) {
    (m.ConnectIntoArray? || m.ConnectBothArrays?) && Place(m.in_, m.portIn, m.selIn) == w
  }

  predicate Leaves(m: Msg, w: Place) {
    (m.DisconnectIntoArray? || m.DisconnectBothArrays?) && Place(m.in_, m.portIn, m.selIn) == w
  }

  /** The agent of the place is neither replaced nor removed, and no connection loops back to its own agent. */
  predicate Plain(m: Msg, w: Place) {
    && (TwoEnds(m) ==> m.out != m.in_)
    && (m.UpdateAgent? ==> m.agt != w.agt)
    && (m.AddAgent? || m.RemoveAgent? ==> m.name != w.agt)
  }

  // ------------------------------------------------------------------ one message

  /** From st to st' the message counted as it should, and a surviving selection kept its channel. */
  ghost predicate Follows(st: Sched, m: Msg, st': Sched, w: Place) {
    && Alive(st', w)
    && Count(st', w) == Count(st, w) + B(Joins(m, w)) - B(Leaves(m, w))
    && (Find(st, w).Some? && Find(st', w).Some? ==> Find(st', w).value.chan == Find(st, w).value.chan)
  }

  /** The other ends keep their array ports. */
  lemma ElsewhereKeeps(st: Sched, next: ChanId, m: Msg, order: seq<string>, w: Place)
    requires w.agt in st.agents && TwoEnds(m) && m.out != m.in_ && m.in_ != w.agt
    requires Handle(st, next, m, order).Effect?
    ensures var st' := Handle(st, next, m, order).st;
      w.agt in st'.agents && st'.agents[w.agt].agent.inArray == st.agents[w.agt].agent.inArray
  {
  }

  /** A selection after connecting to one of the agent's array ports. */
  lemma SharedCounts(agt: Agent, port: string, sel: string, spare: ChanId, p: string, k: string)
    requires ConnectToArray(agt, port, sel, spare).Some? && p in agt.inArray
    ensures var after := ConnectToArray(agt, port, sel, spare).value.agt;
      && p in after.inArray
      && (k in after.inArray[p] <==> k in agt.inArray[p] || (p, k) == (port, sel))
      && (k in agt.inArray[p] ==> after.inArray[p][k].chan == agt.inArray[p][k].chan)
      && (k in agt.inArray[p] ==> after.inArray[p][k].count == agt.inArray[p][k].count + B((p, k) == (port, sel)))
      && (k !in agt.inArray[p] && (p, k) == (port, sel) ==> after.inArray[p][k].count == 1)
  {
  }

  lemma ConnectCounts(st: Sched, next: ChanId, m: Msg, order: seq<string>, w: Place)
    requires Alive(st, w) && (m.ConnectIntoArray? || m.ConnectBothArrays?) && m.out != m.in_ && m.in_ == w.agt
    requires Handle(st, next, m, order).Effect?
    ensures Follows(st, m, Handle(st, next, m, order).st, w)
  {
    var agt := st.agents[w.agt].agent;
    var after := ConnectToArray(agt, m.portIn, m.selIn, next).value.agt;
    assert Handle(st, next, m, order).st.agents[w.agt].agent == after;
    assert w.port !in agt.inArray ==> w.port !in after.inArray;
    if w.port in agt.inArray {
      SharedCounts(agt, m.portIn, m.selIn, next, w.port, w.sel);
    }
  }

  lemma DisconnectCounts(st: Sched, next: ChanId, m: Msg, order: seq<string>, w: Place)
    requires Alive(st, w) && (m.DisconnectIntoArray? || m.DisconnectBothArrays?) && m.out != m.in_ && m.in_ == w.agt
    requires Handle(st, next, m, order).Effect?
    ensures Follows(st, m, Handle(st, next, m, order).st, w)
  {
  }

  lemma OneEndKeeps(st: Sched, next: ChanId, m: Msg, order: seq<string>, w: Place)
    requires w.agt in st.agents && Config(m) && !TwoEnds(m) && Plain(m, w)
    requires Handle(st, next, m, order).Effect?
    ensures var st' := Handle(st, next, m, order).st;
      w.agt in st'.agents && st'.agents[w.agt].agent.inArray == st.agents[w.agt].agent.inArray
  {
  }

  lemma CounterKeeps(st: Sched, next: ChanId, m: Msg, order: seq<string>, w: Place)
    requires w.agt in st.agents && !Config(m)
    requires Handle(st, next, m, order).Effect?
    ensures var st' := Handle(st, next, m, order).st;
      w.agt in st'.agents && st'.agents[w.agt].agent == st.agents[w.agt].agent
  {
    if m.StartAll? {
      StartFold(st, order);
    }
  }

  lemma HandleSelections(st: Sched, next: ChanId, m: Msg, order: seq<string>, w: Place)
    requires Alive(st, w) && Plain(m, w)
    requires Handle(st, next, m, order).Effect?
    ensures Follows(st, m, Handle(st, next, m, order).st, w)
  {
    if TwoEnds(m) && m.in_ != w.agt {
      ElsewhereKeeps(st, next, m, order, w);
    } else if m.ConnectIntoArray? || m.ConnectBothArrays? {
      ConnectCounts(st, next, m, order, w);
    } else if m.DisconnectIntoArray? || m.DisconnectBothArrays? {
      DisconnectCounts(st, next, m, order, w);
    } else if Config(m) {
      OneEndKeeps(st, next, m, order, w);
    } else {
      CounterKeeps(st, next, m, order, w);
    }
  }

  // ------------------------------------------------------------------ the two ends of a connection

  predicate Connects(m: Msg) {
    m.Connect? || m.ConnectFromArray? || m.ConnectIntoArray? || m.ConnectBothArrays?
  }

  /** The channel behind the receiving end a message names. */
  function ReceivingEnd(st: Sched, m: Msg): Option<ChanId>
    requires Connects(m)
  {
    if m.ConnectIntoArray? || m.ConnectBothArrays? then
      var s := Find(st, Place(m.in_, m.portIn, m.selIn));
      if s.Some? then Some(s.value.chan) else None
    else if m.in_ in st.agents && m.portIn in st.agents[m.in_].agent.inport then Some(st.agents[m.in_].agent.inport[m.portIn])
    else None
  }

  /** The channel the sending end it names leads to. */
  function SendingEnd(st: Sched, m: Msg): Option<ChanId>
    requires Connects(m)
  {
    if m.out !in st.agents then None
    else
      var agt := st.agents[m.out].agent;
      if m.ConnectFromArray? || m.ConnectBothArrays? then
        if m.portOut in agt.outArray && m.selOut in agt.outArray[m.portOut] then Some(agt.outArray[m.portOut][m.selOut]) else None
      else if m.portOut in agt.outport then agt.outport[m.portOut]
      else None
  }

  /** After a connection between distinct agents its two ends are the same channel; a channel made for it belongs to
      the receiving agent, and an end that existed is kept. */
  lemma EndsMeet(st: Sched, next: ChanId, m: Msg, order: seq<string>)
    requires Connects(m) && m.out != m.in_
    requires Handle(st, next, m, order).Effect?
    ensures var e := Handle(st, next, m, order);
      && ReceivingEnd(e.st, m).Some? && SendingEnd(e.st, m) == ReceivingEnd(e.st, m)
      && (ReceivingEnd(st, m).Some? ==> e.made == [] && ReceivingEnd(e.st, m) == ReceivingEnd(st, m))
      && (ReceivingEnd(st, m).None? ==> e.made == [Chan(m.in_, true, false, [], 0)] && ReceivingEnd(e.st, m) == Some(next))
  {
  }

  // ------------------------------------------------------------------ every sequence of messages

  datatype Turn = Turn(msg: Msg, order: seq<string>)

  /** Between two messages: the state and the number of channels. */
  datatype Point = Point(st: Sched, next: ChanId)

  ghost predicate Turned(p: Point, turn: Turn, q: Point) {
    var e := Handle(p.st, p.next, turn.msg, turn.order);
    e.Effect? && q == Point(e.st, p.next + |e.made|)
  }

  /** The loop takes the messages one after the other, through these points, and none of them raises. */
  ghost predicate Replays(points: seq<Point>, turns: seq<Turn>) {
    && |points| == |turns| + 1
    && forall i :: 0 <= i < |turns| ==> Turned(points[i], turns[i], points[i + 1])
  }

  function End(points: seq<Point>): Sched
    requires points != []
  {
    points[|points| - 1].st
  }

  /** Connects minus disconnects. */
  function Net(turns: seq<Turn>, w: Place): int {
    if turns == [] then 0 else B(Joins(turns[0].msg, w)) - B(Leaves(turns[0].msg, w)) + Net(turns[1..], w)
  }

  lemma TurnFollows(p: Point, turn: Turn, q: Point, w: Place)
    requires Turned(p, turn, q) && Alive(p.st, w) && Plain(turn.msg, w)
    ensures Follows(p.st, turn.msg, q.st, w)
  {
    HandleSelections(p.st, p.next, turn.msg, turn.order, w);
  }

  lemma ReplaysRest(points: seq<Point>, turns: seq<Turn>)
    requires Replays(points, turns) && turns != []
    ensures Replays(points[1..], turns[1..]) && End(points[1..]) == End(points)
  {
    forall i | 0 <= i < |turns[1..]| ensures Turned(points[1..][i], turns[1..][i], points[1..][i + 1]) {
      assert Turned(points[i + 1], turns[i + 1], points[i + 2]);
    }
  }

  lemma FirstTurn(points: seq<Point>, turns: seq<Turn>, w: Place)
    requires Replays(points, turns) && turns != []
    requires Alive(points[0].st, w) && Plain(turns[0].msg, w)
    ensures Follows(points[0].st, turns[0].msg, points[1].st, w)
  {
    TurnFollows(points[0], turns[0], points[1], w);
  }

  /** A selection exists exactly when its connects outnumber its disconnects, and then counts the difference. */
  lemma {:induction false} SelectionsCount(points: seq<Point>, turns: seq<Turn>, w: Place)
    requires Replays(points, turns) && Alive(points[0].st, w)
    requires forall i :: 0 <= i < |turns| ==> Plain(turns[i].msg, w)
    ensures Alive(End(points), w)
    ensures Count(End(points), w) == Count(points[0].st, w) + Net(turns, w)
    ensures Find(End(points), w).Some? <==> Count(points[0].st, w) + Net(turns, w) >= 1
    decreases |turns|
  {
    if turns != [] {
      FirstTurn(points, turns, w);
      ReplaysRest(points, turns);
      SelectionsCount(points[1..], turns[1..], w);
    }
  }

  /** While the balance stays positive the selection keeps its channel, so its senders stay connected. */
  lemma {:induction false} ChannelStays(points: seq<Point>, turns: seq<Turn>, w: Place)
    requires Replays(points, turns) && Alive(points[0].st, w)
    requires forall i :: 0 <= i < |turns| ==> Plain(turns[i].msg, w)
    requires forall i :: 0 <= i <= |turns| ==> Count(points[0].st, w) + Net(turns[..i], w) >= 1
    ensures Find(points[0].st, w).Some? && Find(End(points), w).Some?
    ensures Find(End(points), w).value.chan == Find(points[0].st, w).value.chan
    decreases |turns|
  {
    assert Count(points[0].st, w) + Net(turns[..0], w) >= 1;
    if turns != [] {
      FirstTurn(points, turns, w);
      ReplaysRest(points, turns);
      forall i | 0 <= i <= |turns[1..]| ensures Count(points[1].st, w) + Net(turns[1..][..i], w) >= 1 {
        assert turns[..i + 1] == [turns[0]] + turns[1..][..i];
        assert Count(points[0].st, w) + Net(turns[..i + 1], w) >= 1;
      }
      ChannelStays(points[1..], turns[1..], w);
    }
  }

  /** From the agent's creation on: the count is exactly the balance, which is never negative. */
  lemma SelectionsOfNewAgent(points: seq<Point>, opt: OptAgent, base: ChanId, turns: seq<Turn>, w: Place)
    requires Replays(points, turns)
    requires w.agt in points[0].st.agents && points[0].st.agents[w.agt].agent == MakeAgent(opt, base)
    requires forall i :: 0 <= i < |turns| ==> Plain(turns[i].msg, w)
    ensures Net(turns, w) >= 0
    ensures Count(End(points), w) == Net(turns, w)
    ensures Find(End(points), w).Some? <==> Net(turns, w) >= 1
  {
    assert Find(points[0].st, w).None?;
    SelectionsCount(points, turns, w);
  }

  // ------------------------------------------------------------------ one call undoes the other

  /** Disconnecting right after connecting restores the agent, unless the count stood at zero. */
  lemma DisconnectUndoesConnect(agt: Agent, port: string, sel: string, spare: ChanId)
    requires port in agt.inArray
    ensures var sh := ConnectToArray(agt, port, sel, spare).value;
      DisconnectToArray(sh.agt, port, sel) == Some(agt) <==> !(sel in agt.inArray[port] && agt.inArray[port][sel].count == 0)
  {
    var sh := ConnectToArray(agt, port, sel, spare).value;
    var undone := DisconnectToArray(sh.agt, port, sel).value;
    if sel in agt.inArray[port] && agt.inArray[port][sel].count == 0 {
      assert sel !in undone.inArray[port];
    } else {
      assert undone.inArray[port] == agt.inArray[port];
      assert undone.inArray == agt.inArray;
    }
  }

  /** The same for the two messages, between distinct agents: the receiving agent is as before. */
  lemma DisconnectUndoesConnectMessage(st: Sched, next: ChanId, out: string, po: string, w: Place, order: seq<string>)
    requires Alive(st, w) && out != w.agt
    requires Handle(st, next, ConnectIntoArray(out, po, w.agt, w.port, w.sel), order).Effect?
    ensures var e1 := Handle(st, next, ConnectIntoArray(out, po, w.agt, w.port, w.sel), order);
      var e2 := Handle(e1.st, next + |e1.made|, DisconnectIntoArray(out, po, w.agt, w.port, w.sel), order);
      e2.Effect? && e2.st.agents[w.agt].agent == st.agents[w.agt].agent
  {
    DisconnectUndoesConnect(st.agents[w.agt].agent, w.port, w.sel, next);
  }

  // ------------------------------------------------------------------ loops

  /** A connection into an array is counted exactly when it joins two agents: with one agent at both ends its
      sending side is stored over its receiving side. */
  lemma CountedIff(st: Sched, next: ChanId, m: Msg, order: seq<string>)
    requires TwoEnds(m) && Alive(st, Place(m.in_, m.portIn, m.selIn))
    requires Handle(st, next, m, order).Effect?
    ensures var w := Place(m.in_, m.portIn, m.selIn); var st' := Handle(st, next, m, order).st;
      && (Count(st', w) == Count(st, w) + B(Joins(m, w)) - B(Leaves(m, w)) <==> m.out != m.in_)
      && (m.out == m.in_ ==> st'.agents[m.in_].agent.inArray == st.agents[m.in_].agent.inArray)
  {
    if m.out != m.in_ {
      HandleSelections(st, next, m, order, Place(m.in_, m.portIn, m.selIn));
    }
  }
}
