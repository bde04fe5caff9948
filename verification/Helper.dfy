/**
 The elevated helper that owns the adapter: what it does with the app's messages, and the
 queue its packets for the app wait in (src/steamlan/adapter/helper.py).
 */
module Helper {
  import opened Basics
  import opened Ipv4
  import opened Tunnel

  const MAX_QUEUED_PACKETS := 1024

  // What waits for the writer thread.
  datatype Item = Packet(packet: Bytes) | Note(text: Bytes) | Stop

  function Packets(items: seq<Item>): (n: nat)
    ensures n <= |items|
    decreases |items|
  {
    if items == [] then 0 else (if items[0].Packet? then 1 else 0) + Packets(items[1..])
  }

  lemma {:induction false} PacketsConcat(a: seq<Item>, b: seq<Item>)
    ensures Packets(a + b) == Packets(a) + Packets(b)
    decreases |a|
  {
    if a == [] {
      assert a + b == b;
    } else {
      assert (a + b)[1..] == a[1..] + b;
      PacketsConcat(a[1..], b);
    }
  }

  class Channel {
    var queue: seq<Item>
    var dropped: nat
    ghost var accepted: seq<Item>  // everything that was ever queued
    ghost var written: seq<Item>  // what the writer thread has taken since

    /** Nothing queued is lost, repeated or reordered, and packets never pile up. */
    ghost predicate Valid()
      reads this
    {
      accepted == written + queue && Packets(queue) <= MAX_QUEUED_PACKETS
    }

    constructor ()
      ensures Valid() && queue == [] && written == [] && dropped == 0
    {
      queue, dropped, accepted, written := [], 0, [], [];
    }

    /** Anything but a packet waits however long the queue is. */
    method Send(item: Item)
      requires Valid() && !item.Packet?
      modifies this
      ensures Valid() && queue == old(queue) + [item] && written == old(written) && dropped == old(dropped)
    {
      Append(item);
    }

    method SendPacket(packet: Bytes)
      requires Valid()
      modifies this
      ensures Valid() && written == old(written)
      ensures if |old(queue)| >= MAX_QUEUED_PACKETS then queue == old(queue) && dropped == old(dropped) + 1
              else queue == old(queue) + [Packet(packet)] && dropped == old(dropped)
    {
      if |queue| >= MAX_QUEUED_PACKETS {
        dropped := dropped + 1;
        return;
      }
      Append(Packet(packet));
    }

    method Append(item: Item)
      requires accepted == written + queue && Packets(queue) + Packets([item]) <= MAX_QUEUED_PACKETS
      modifies `queue, `accepted
      ensures Valid() && queue == old(queue) + [item]
    {
      PacketsConcat(queue, [item]);
      queue, accepted := queue + [item], accepted + [item];
    }

    /** The writer thread takes the oldest. */
    method Take() returns (item: Item)
      requires Valid() && queue != []
      modifies `queue, `written
      ensures Valid() && [item] + queue == old(queue) && written == old(written) + [item]
    {
      item := queue[0];
      assert queue == [item] + queue[1..];
      PacketsConcat([item], queue[1..]);
      queue, written := queue[1..], written + [item];
    }
  }

  // Messages from the app: a tag and a body (src/steamlan/adapter/protocol.py).
  const SET_ADDRESS: Byte := 65
  const PACKET: Byte := 80
  const STOP: Byte := 83
  const ADDRESS_SET: Byte := 65

  /** An address that isn't one of the network's members is no address. */
  datatype Request = WritePacket(packet: Bytes) | SetAddress(address: Option<Address>) | StopHelper | Unknown

  function ParseAddress(body: Bytes): Option<Address> {
    if |body| != 4 then None
    else
      var a := Number32(body[0], body[1], body[2], body[3]);
      if IsMemberAddress(a) then Some(a) else None
  }

  function ParseRequest(message: Bytes): Request {
    if message == [] then Unknown
    else if message[0] == PACKET then WritePacket(message[1..])
    else if message[0] == SET_ADDRESS then SetAddress(ParseAddress(message[1..]))
    else if message[0] == STOP then StopHelper
    else Unknown
  }

  /** A body is a member's address exactly when it is the four bytes of one. */
  lemma ParseAddressInverse(body: Bytes, a: Address)
    ensures ParseAddress(body) == Some(a) <==> IsMemberAddress(a) && body == Packed(a)
  {
    PackedInverse(a);
    if |body| == 4 {
      NumberInverse(body[0], body[1], body[2], body[3]);
      assert body == [body[0], body[1], body[2], body[3]];
    }
  }

  /** What the adapter does with a packet it is given. */
  datatype Outcome = Taken | Full | Broken

  class Helper {
    const channel: Channel
    var address: Option<Address>
    var dropped: nat
    ghost var toWindows: seq<Bytes>

    /** The adapter was only ever given what its one address allows. */
    ghost predicate Valid()
      reads this, channel
    {
      && channel.Valid()
      && (address.Some? ==> IsMemberAddress(address.value))
      && (address.None? ==> toWindows == [])
      && (forall i :: 0 <= i < |toWindows| ==> address.Some? && MayWrite(toWindows[i], address.value))
    }

    constructor (channel: Channel)
      requires channel.Valid()
      ensures Valid() && this.channel == channel && address.None? && toWindows == [] && dropped == 0
    {
      this.channel, address, dropped, toWindows := channel, None, 0, [];
    }

    /** Carries out one message; true to go on, false to stop, an error to fail. The
        adapter's answers are parameters. */
    method Handle(message: Bytes, outcome: Outcome, assigns: bool) returns (result: Result<bool>)
      requires Valid()
      modifies this, channel
      ensures Valid() && channel.written == old(channel.written) && channel.dropped == old(channel.dropped)
      ensures old(address).Some? ==> address == old(address)
      ensures address != old(address) ==> assigns && address.Some? && ParseRequest(message) == SetAddress(address)
      ensures var request := ParseRequest(message);
        match request
        case WritePacket(packet) =>
          var may := address.Some? && MayWrite(packet, address.value);
          && toWindows == old(toWindows) + (if may && outcome.Taken? then [packet] else [])
          && dropped == old(dropped) + (if may && !outcome.Full? then 0 else 1)
          && (result.Ok? <==> !(may && outcome.Broken?))
        case SetAddress(wanted) =>
          && toWindows == old(toWindows) && dropped == old(dropped)
          && (result.Ok? <==> wanted.Some? && (old(address) == wanted || (old(address).None? && assigns)))
          && (result.Ok? ==> address == wanted)
        case StopHelper => toWindows == old(toWindows) && dropped == old(dropped) && result == Ok(false)
        case Unknown => toWindows == old(toWindows) && dropped == old(dropped) && result.Ok?
      ensures ParseRequest(message) != StopHelper ==> result != Ok(false)
      ensures channel.queue == old(channel.queue) +
        if ParseRequest(message).SetAddress? && result.Ok? then [Note([ADDRESS_SET] + message[1..])] else []
    {
      result := Ok(true);
      match ParseRequest(message)
      case WritePacket(packet) =>
        if address.None? || !MayWrite(packet, address.value) {
          dropped := dropped + 1;
          return;
        }
        if outcome.Taken? {
          toWindows := toWindows + [packet];
        } else if outcome.Full? {
          dropped := dropped + 1;
        } else {
          return Error("the adapter failed");
        }
      case SetAddress(wanted) =>
        if wanted.None? {
          return Error("not an address of the network");
        }
        ParseAddressInverse(message[1..], wanted.value);
        if address.None? {
          if !assigns {
            return Error("the address could not be set");
          }
          address := wanted;
        } else if address != wanted {
          return Error("the adapter already has another address");
        }
        channel.Send(Note([ADDRESS_SET] + Packed(wanted.value)));
      case StopHelper => return Ok(false);
      case Unknown =>
    }

    /** A packet Windows sent into the adapter: only IPv4 is passed on. */
    method Read(packet: Bytes)
      requires Valid()
      modifies channel
      ensures Valid() && channel.written == old(channel.written)
      ensures var carried := address.Some? && IpVersion(packet) == Some(4);
        var full := |old(channel.queue)| >= MAX_QUEUED_PACKETS;
        && channel.queue == old(channel.queue) + (if carried && !full then [Packet(packet)] else [])
        && channel.dropped == old(channel.dropped) + (if carried && full then 1 else 0)
    {
      if address.Some? && IpVersion(packet) == Some(4) {
        channel.SendPacket(packet);
      }
    }
  }
}
