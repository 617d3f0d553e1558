// The ports of modules/rkt/rkt-fbp/port.rkt as objects: a port shares a bounded channel with its senders and the
// mailbox of the scheduler.
module RktPorts {
  import opened RktAgent
  import opened RktScheduler
  import opened RktTokens

  class Mailbox {
    var msgs: seq<Msg>

    constructor ()
      ensures msgs == []
    {
      msgs := [];
    }
  }

  /** A bounded async channel. */
  class Channel {
    var items: seq<Payload>

    constructor ()
      ensures items == []
    {
      items := [];
    }
  }

  /** How many packets a drain takes before it meets the end or a packet #f. */
  function Run(items: seq<Payload>): (n: nat)
    ensures n <= |items|
    ensures forall k :: 0 <= k < n ==> items[k] != False
    ensures n < |items| ==> items[n] == False
  {
    if items == [] || items[0] == False then 0 else 1 + Run(items[1..])
  }

  /** The option that counts: the last packet of the run, or else the one in hand. */
  function Latest(items: seq<Payload>, acc: Payload): Payload {
    if Run(items) == 0 then acc else items[Run(items) - 1]
  }

  /** The packets behind the drained ones. */
  function Behind(items: seq<Payload>): seq<Payload> {
    if Run(items) < |items| then items[Run(items) + 1..] else []
  }

  function PutBack(option: Payload): seq<Payload> {
    if option == False then [] else [option]
  }

  /** An option port without packets #f answers with the newest option, keeps it, and so answers the same again. */
  lemma OptionIsStable(items: seq<Payload>)
    requires items != [] && False !in items
    ensures Latest(items, False) == items[|items| - 1]
    ensures var after := Behind(items) + PutBack(Latest(items, False));
      after == [items[|items| - 1]] && Latest(after, False) == Latest(items, False)
      && Behind(after) + PutBack(Latest(after, False)) == after
  {
    assert items[|items| - 1] in items;
    assert Run(items) == |items|;
  }

  /** Tokens announced for the owner minus packets queued. */
  ghost function Gap(thd: Mailbox, channel: Channel, name: string): int
    reads thd, channel
  {
    Pending(thd.msgs, IncIp(name)) - Pending(thd.msgs, DecIp(name)) - |channel.items|
  }

  class Port {
    const channel: Channel
    const name: string
    const thd: Mailbox
    const synced: bool
    const option: bool

    constructor (name: string, thd: Mailbox, synced: bool, option: bool)
      ensures fresh(channel) && channel.items == []
      ensures this.name == name && this.thd == thd && this.synced == synced && this.option == option
    {
      channel := new Channel();
      this.name, this.thd, this.synced, this.option := name, thd, synced, option;
    }

    /** Returns once there was room in the channel. */
    method PortSend(msg: Payload)
      requires |channel.items| < CAPACITY
      modifies channel, thd
      ensures channel.items == old(channel.items) + [msg]
      ensures thd.msgs == old(thd.msgs) + (if synced then [IncIp(name)] else [])
      ensures synced ==> Gap(thd, channel, name) == old(Gap(thd, channel, name))
    {
      channel.items := channel.items + [msg];
      if synced {
        thd.msgs := thd.msgs + [IncIp(name)];
      }
    }

    /** Returns once there was a packet. */
    method PortRecv() returns (msg: Payload)
      requires 0 < |channel.items| <= CAPACITY
      modifies channel, thd
      ensures !option ==>
        && old(channel.items) == [msg] + channel.items
        && thd.msgs == old(thd.msgs) + (if synced then [DecIp(name)] else [])
        && (synced ==> Gap(thd, channel, name) == old(Gap(thd, channel, name)))
      ensures option ==>
        && msg == Latest(old(channel.items), False)
        && channel.items == Behind(old(channel.items)) + PutBack(msg)
        && thd.msgs == old(thd.msgs)
    {
      if option {
        msg := RecvOption(False, true);
      } else {
        if synced {
          thd.msgs := thd.msgs + [DecIp(name)];
        }
        msg := channel.items[0];
        channel.items := channel.items[1..];
      }
    }

    /** #f means that there was nothing, or that the packet was #f itself: then it is gone and unannounced. */
    method PortTryRecv() returns (msg: Payload)
      requires |channel.items| <= CAPACITY
      modifies channel, thd
      ensures !option && old(channel.items) == [] ==> msg == False && channel.items == [] && thd.msgs == old(thd.msgs)
      ensures !option && old(channel.items) != [] ==>
        && old(channel.items) == [msg] + channel.items
        && thd.msgs == old(thd.msgs) + (if synced && msg != False then [DecIp(name)] else [])
        && (synced ==> (Gap(thd, channel, name) == old(Gap(thd, channel, name)) <==> msg != False))
      ensures option ==>
        && msg == Latest(old(channel.items), False)
        && channel.items == Behind(old(channel.items)) + PutBack(msg)
        && thd.msgs == old(thd.msgs)
    {
      if option {
        msg := RecvOption(False, false);
      } else if channel.items == [] {
        msg := False;
      } else {
        msg := channel.items[0];
        channel.items := channel.items[1..];
        if msg != False && synced {
          thd.msgs := thd.msgs + [DecIp(name)];
        }
      }
    }

    /** Drains the channel and puts the newest packet back behind what is left. */
    method RecvOption(acc: Payload, force: bool) returns (msg: Payload)
      requires |channel.items| <= CAPACITY && (force ==> channel.items != [])
      modifies channel
      ensures msg == Latest(old(channel.items), acc)
      ensures channel.items == Behind(old(channel.items)) + PutBack(msg)
      decreases |channel.items|
    {
      var head := False;
      if channel.items != [] {
        head := channel.items[0];
        channel.items := channel.items[1..];
      }
      if head != False {
        msg := RecvOption(head, false);
      } else if acc != False {
        channel.items := channel.items + [acc];
        msg := acc;
      } else {
        msg := False;
      }
    }
  }
}
