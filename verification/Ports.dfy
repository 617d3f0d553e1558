// The ports of modules/rs/rustfbp/src/ports.rs as objects: a sender and a receiver share a bounded queue and
// the mailbox of the scheduler, and move a packet before they announce it.
module Ports {
  import opened Wrappers
  import opened Interior
  import opened System
  import opened Tokens

  /** The scheduler's unbounded channel; `live` until the scheduler is gone. */
  class Mailbox {
    var msgs: seq<CompMsg>
    var live: bool

    constructor ()
      ensures msgs == [] && live
    {
      msgs, live := [], true;
    }
  }

  datatype RecvError = Empty | SchedulerGone

  /** sync_channel(25); `live` until its receiver is dropped. */
  class PortQueue {
    var items: seq<Packet>
    var live: bool

    constructor ()
      ensures items == [] && live
    {
      items, live := [], true;
    }
  }

  /** Tokens announced for `dest` minus packets queued: a completed send or receive never changes it. */
  ghost function Gap(sched: Mailbox, queue: PortQueue, dest: Id): int
    reads sched, queue
  {
    Pending(sched.msgs, Inc(dest)) - Pending(sched.msgs, Dec(dest)) - |queue.items|
  }

  class MsgSender {
    const queue: PortQueue
    const dest: Id
    const sched: Mailbox
    const mustSched: bool

    constructor (queue: PortQueue, dest: Id, sched: Mailbox, mustSched: bool)
      ensures this.queue == queue && this.dest == dest && this.sched == sched && this.mustSched == mustSched
    {
      this.queue, this.dest, this.sched, this.mustSched := queue, dest, sched, mustSched;
    }

    /** Returns once there was room in the queue, or at once, with an error and no packet moved, when the receiver is
        gone. With the scheduler gone the packet is queued and an error is returned all the same. */
    method Send(p: Packet) returns (ok: bool)
      requires queue.live ==> |queue.items| < CAPACITY
      modifies queue`items, sched`msgs
      ensures ok <==> queue.live && (mustSched ==> sched.live)
      ensures queue.items == old(queue.items) + (if queue.live then [p] else [])
      ensures sched.msgs == old(sched.msgs) + (if ok && mustSched then [Inc(dest)] else [])
      ensures mustSched ==> (Gap(sched, queue, dest) == old(Gap(sched, queue, dest)) <==> ok || !queue.live)
    {
      if !queue.live {
        return false;
      }
      queue.items := queue.items + [p];
      if mustSched {
        if !sched.live {
          return false;
        }
        sched.msgs := sched.msgs + [Inc(dest)];
      }
      ok := true;
    }
  }

  class MsgReceiver {
    const id: Id
    const queue: PortQueue
    const sender: MsgSender
    const sched: Mailbox
    const mustSched: bool

    /** The receiver and its own sender are two ends of one fresh queue. */
    constructor (id: Id, sched: Mailbox, mustSched: bool)
      ensures this.id == id && this.sched == sched && this.mustSched == mustSched
      ensures fresh(queue) && fresh(sender) && queue.items == [] && queue.live
      ensures sender.queue == queue && sender.dest == id && sender.sched == sched && sender.mustSched == mustSched
    {
      var q := new PortQueue();
      var s := new MsgSender(q, id, sched, mustSched);
      this.id, this.queue, this.sender, this.sched, this.mustSched := id, q, s, sched, mustSched;
    }

    /** The message taken is the oldest one; an empty queue is reported at once and changes nothing. With the scheduler
        gone the packet is taken and lost. */
    method TryRecv() returns (r: Result<Packet, RecvError>)
      modifies queue`items, sched`msgs
      ensures old(queue.items) == [] ==> r == Err(Empty) && queue.items == [] && sched.msgs == old(sched.msgs)
      ensures old(queue.items) != [] && (mustSched ==> sched.live) ==>
        && r.Ok? && old(queue.items) == [r.value] + queue.items
        && sched.msgs == old(sched.msgs) + (if mustSched then [Dec(id)] else [])
      ensures old(queue.items) != [] && mustSched && !sched.live ==>
        r == Err(SchedulerGone) && queue.items == old(queue.items)[1..] && sched.msgs == old(sched.msgs)
      ensures mustSched ==> (Gap(sched, queue, id) == old(Gap(sched, queue, id)) <==> r != Err(SchedulerGone))
    {
      if queue.items == [] {
        return Err(Empty);
      }
      var p := queue.items[0];
      queue.items := queue.items[1..];
      if mustSched {
        if !sched.live {
          return Err(SchedulerGone);
        }
        sched.msgs := sched.msgs + [Dec(id)];
      }
      r := Ok(p);
    }

    /** Returns once there was a packet in the queue. */
    method Recv() returns (r: Result<Packet, RecvError>)
      requires queue.items != []
      modifies queue`items, sched`msgs
      ensures (mustSched ==> sched.live) ==>
        && r.Ok? && old(queue.items) == [r.value] + queue.items
        && sched.msgs == old(sched.msgs) + (if mustSched then [Dec(id)] else [])
      ensures mustSched && !sched.live ==>
        r == Err(SchedulerGone) && queue.items == old(queue.items)[1..] && sched.msgs == old(sched.msgs)
      ensures mustSched ==> (Gap(sched, queue, id) == old(Gap(sched, queue, id)) <==> r != Err(SchedulerGone))
    {
      r := TryRecv();
    }

    method GetSender() returns (s: MsgSender)
      ensures s.queue == sender.queue && s.dest == sender.dest && s.sched == sender.sched && s.mustSched == sender.mustSched
    {
      s := sender;
    }
  }
}
