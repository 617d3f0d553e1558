// Token conservation: the signed counter of an agent, the Inc and Dec messages still in the mailbox and
// the announcements still owed always add up to the packets on its scheduled ports.
module Tokens {
  import opened Counting
  import opened Wrappers
  import opened Interior
  import opened System
  import opened Ordering
  import opened Wiring
  import opened Ownership
  import Exterior

  /** Packets of a scheduled channel of agent `id`: queued, or discarded with a replaced receiver. */
  function Weight(c: Channel, id: Id): nat {
    if c.scheduled && c.owner == id then |c.queue| + c.lost else 0
  }

  function Load(cs: seq<Channel>, id: Id): nat {
    if cs == [] then 0 else Load(cs[..|cs| - 1], id) + Weight(cs[|cs| - 1], id)
  }

  function Ips(agents: map<Id, CompState>, id: Id): int {
    if id in agents then agents[id].ips else 0
  }

  function Pending(mailbox: seq<CompMsg>, m: CompMsg): nat {
    multiset(mailbox)[m]
  }

  function Debtors(half: map<Actor, CompMsg>, m: CompMsg): set<Actor> {
    Holders(half, m)
  }

  function Owed(half: map<Actor, CompMsg>, m: CompMsg): nat {
    |Debtors(half, m)|
  }

  ghost predicate Conserved(s: Sys) {
    forall i: Id :: ConservedAt(s, i)
  }

  ghost predicate ConservedAt(s: Sys, i: Id) {
    Ips(s.sched.agents, i) + Pending(s.mailbox, Inc(i)) - Pending(s.mailbox, Dec(i))
    == Load(s.channels, i) - Owed(s.half, Inc(i)) + Owed(s.half, Dec(i))
  }

  // ------------------------------------------------------------------ sums over channels

  lemma {:induction false} LoadUpdate(cs: seq<Channel>, c: nat, ch: Channel, id: Id)
    requires c < |cs|
    ensures Load(cs[c := ch], id) == Load(cs, id) - Weight(cs[c], id) + Weight(ch, id)
  {
    var n := |cs| - 1;
    if c == n {
      assert cs[c := ch][..n] == cs[..n];
    } else {
      assert cs[c := ch][..n] == cs[..n][c := ch];
      LoadUpdate(cs[..n], c, ch, id);
    }
  }

  lemma {:induction false} LoadAppend(cs: seq<Channel>, more: seq<Channel>, id: Id)
    requires forall k :: 0 <= k < |more| ==> Weight(more[k], id) == 0
    ensures Load(cs + more, id) == Load(cs, id)
  {
    if more == [] {
      assert cs + more == cs;
    } else {
      var n := |more| - 1;
      assert (cs + more)[..|cs + more| - 1] == cs + more[..n];
      LoadAppend(cs, more[..n], id);
    }
  }

  lemma {:induction false} LoadDrop(cs: seq<Channel>, ids: seq<ChanId>, id: Id)
    ensures Load(DropAll(cs, ids), id) == Load(cs, id)
    decreases |ids|
  {
    if ids != [] {
      if ids[0] < |cs| {
        LoadUpdate(cs, ids[0], Drop(cs[ids[0]]), id);
        LoadDrop(cs[ids[0] := Drop(cs[ids[0]])], ids[1..], id);
      } else {
        LoadDrop(cs, ids[1..], id);
      }
    }
  }

  /** No load means every scheduled queue of the agent is empty and nothing was ever discarded from one. */
  lemma {:induction false} NoLoad(cs: seq<Channel>, id: Id)
    requires Load(cs, id) == 0
    ensures forall c :: 0 <= c < |cs| && cs[c].scheduled && cs[c].owner == id ==> cs[c].queue == [] && cs[c].lost == 0
  {
    if cs != [] {
      NoLoad(cs[..|cs| - 1], id);
      forall c | 0 <= c < |cs| && cs[c].scheduled && cs[c].owner == id ensures cs[c].queue == [] && cs[c].lost == 0 {
        assert c < |cs| - 1 ==> cs[..|cs| - 1][c] == cs[c];
      }
    }
  }

  // ------------------------------------------------------------------ announcements

  lemma OwedAdd(half: map<Actor, CompMsg>, a: Actor, v: CompMsg, m: CompMsg)
    requires a !in half
    ensures Owed(half[a := v], m) == Owed(half, m) + B(v == m)
  {
    HolderAdded(half, a, v, m);
  }

  lemma OwedRemove(half: map<Actor, CompMsg>, a: Actor, m: CompMsg)
    requires a in half
    ensures Owed(half - {a}, m) == Owed(half, m) - B(half[a] == m)
  {
    HolderRemoved(half, a, m);
  }

  // ------------------------------------------------------------------ the invariant

  lemma HandleIps(st: Sched, m: CompMsg, i: Id)
    requires m != Halt
    requires m.NewAgent? ==> m.id !in st.agents
    requires m.Inc? || m.Dec? ==> m.id in st.agents
    ensures Ips(Handle(st, m).st.agents, i) == Ips(st.agents, i) + B(m == Inc(i)) - B(m == Dec(i))
  {
  }

  lemma PendingTake(mailbox: seq<CompMsg>, posts: seq<CompMsg>, m: CompMsg)
    requires mailbox != [] && (posts == [] || posts == [Halt]) && (m.Inc? || m.Dec?)
    ensures Pending(mailbox[1..] + posts, m) == Pending(mailbox, m) - B(mailbox[0] == m)
  {
    assert mailbox == [mailbox[0]] + mailbox[1..];
    if posts == [] {
      assert mailbox[1..] + posts == mailbox[1..];
    }
  }

  lemma DispatchConserves(s: Sys)
    requires Ordered(s) && Conserved(s) && Enabled(s, Dispatch)
    ensures Conserved(TakeOne(s))
  {
    var t := TakeOne(s);
    var m := s.mailbox[0];
    DispatchKeepsOrder(s);
    forall i: Id ensures ConservedAt(t, i) {
      assert ConservedAt(s, i);
      if m == Halt {
        assert t.mailbox == s.mailbox[1..] + [];
        PendingTake(s.mailbox, [], Inc(i));
        PendingTake(s.mailbox, [], Dec(i));
      } else {
        var e := Handle(s.sched, m);
        HandleTouchesOneId(s.sched, m);
        TakeOneFacts(s);
        assert FreshNew(s.sched.agents, s.mailbox, 0);
        assert HasId(m) && !m.NewAgent? ==> KnownAt(s.sched.agents, s.mailbox, 0, m.id);
        HandleIps(s.sched, m, i);
        LoadDrop(s.channels, e.dropped, i);
        PendingTake(s.mailbox, e.posts, Inc(i));
        PendingTake(s.mailbox, e.posts, Dec(i));
      }
    }
  }

  lemma OutsideConserves(s: Sys, step: Step)
    requires Conserved(s) && Enabled(s, step)
    requires PostsFromOutside(s, step)
    ensures Conserved(Next(s, step))
  {
    var t := Next(s, step);
    var m := OutsideStep(s, step);
    forall i: Id ensures ConservedAt(t, i) {
      assert ConservedAt(s, i);
      if step.AddNode? {
        LoadAppend(s.channels, NodeChannels(s.ext.nextId, step.sort), i);
      } else if step.AddElement? || step.SoftAddElement? {
        var c := s.ext.agents[step.comp];
        LoadAppend(s.channels, [Open(c.id, true, Lookup(c.sort.inarr, step.port))], i);
      }
    }
  }

  lemma MoveConserves(s: Sys, step: Step)
    requires Conserved(s) && Enabled(s, step) && (step.Push? || step.Pop?)
    ensures Conserved(Next(s, step))
  {
    var t := Next(s, step);
    forall i: Id ensures ConservedAt(t, i) {
      assert ConservedAt(s, i);
      var ch := s.channels[step.chan];
      LoadUpdate(s.channels, step.chan, t.channels[step.chan], i);
      if ch.scheduled {
        OwedAdd(s.half, step.actor, t.half[step.actor], Inc(i));
        OwedAdd(s.half, step.actor, t.half[step.actor], Dec(i));
      }
    }
  }

  lemma StepConserves(s: Sys, step: Step)
    requires Ordered(s) && Conserved(s) && Enabled(s, step)
    ensures Conserved(Next(s, step))
  {
    if step.Dispatch? {
      DispatchConserves(s);
    } else if step.Push? || step.Pop? {
      MoveConserves(s, step);
    } else if PostsFromOutside(s, step) {
      OutsideConserves(s, step);
    } else {
      var t := Next(s, step);
      forall i: Id ensures ConservedAt(t, i) {
        assert ConservedAt(s, i);
        if step.Announce? {
          OwedRemove(s.half, step.actor, Inc(i));
          OwedRemove(s.half, step.actor, Dec(i));
        }
      }
    }
  }

  lemma InitConserved()
    ensures Conserved(Init)
  {
    forall i: Id ensures ConservedAt(Init, i) {
      assert Debtors(Init.half, Inc(i)) == {} && Debtors(Init.half, Dec(i)) == {};
    }
  }
}
