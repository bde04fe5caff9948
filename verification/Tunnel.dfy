/**
 IP packets between members: what may leave, what may be accepted, what the elevated
 helper writes, and where the copies of a packet go (src/steamlan/app/tunnel.py,
 src/steamlan/app/network.py, src/steamlan/adapter/helper.py).
 */
module Tunnel {
  import opened Basics
  import opened Ipv4
  import opened Roster
  import Access

  const PACKET_PREFIX: Byte := 0

  function PacketMessage(packet: Bytes): Bytes { [PACKET_PREFIX] + packet }

  function PacketPayload(data: Bytes): Option<Bytes> {
    if data != [] && data[0] == PACKET_PREFIX then Some(data[1..]) else None
  }

  /** How to deliver a packet Windows sent into the adapter; None to drop it. */
  function Outgoing(packet: Bytes, local: Option<Address>): Option<Addressing> {
    var info := AddressingOf(packet);
    if info.None? || info.value.delivery.None? || local.None? then None
    else if info.value.source != local.value || info.value.destination == local.value then None
    else if info.value.protocol == IGMP then None
    else info
  }

  /** How a packet from a member may be written to the local adapter; None if it may not. */
  function AcceptsPacket(packet: Bytes, sender: Option<Address>, local: Option<Address>): Option<Delivery> {
    if sender.None? then None else MayDeliver(packet, local, sender)
  }

  /** What the elevated helper lets the app write to the adapter at an address. */
  predicate MayWrite(packet: Bytes, address: Address) { MayDeliver(packet, Some(address), None).Some? }

  // The three rules, told of the packet's bytes

  /** Version 4, a header of 20 bytes or more, and a total length that has it and is there. */
  predicate HasHeader(packet: Bytes) {
    && |packet| >= 20 && packet[0] / 16 == 4
    && 20 <= packet[0] % 16 * 4 <= packet[2] * 256 + packet[3] <= |packet|
  }

  /** 10.77.0.1 to 10.77.0.254. */
  predicate IsHost(b: Bytes) { |b| == 4 && b[0] == 10 && b[1] == 77 && b[2] == 0 && 1 <= b[3] <= 254 }

  /** One member, everybody (10.77.0.255 and 255.255.255.255), a group (224.0.0.0/4), or nobody. */
  function GoesTo(b: Bytes): Option<Delivery> {
    if IsHost(b) then Some(Unicast)
    else if b == [10, 77, 0, 255] || b == [255, 255, 255, 255] then Some(Broadcast)
    else if b != [] && 224 <= b[0] <= 239 then Some(Multicast)
    else None
  }

  lemma HostIsMember(a: Address)
    ensures IsMemberAddress(a) <==> IsHost(Packed(a))
    ensures DeliveryOf(a) == GoesTo(Packed(a))
  {
    var b := Packed(a);
    var b0: int, b1: int, b2: int, b3: int := b[0], b[1], b[2], b[3];
    PackedInverse(a);
    assert a == ((b0 * 256 + b1) * 256 + b2) * 256 + b3;
    assert a / 256 == (b0 * 256 + b1) * 256 + b2 && a / 0x1000_0000 == b0 / 16;
  }

  lemma PackedSame(a: Address, b: Address)
    ensures Packed(a) == Packed(b) <==> a == b
  {
    PackedInverse(a);
    PackedInverse(b);
  }

  /** What the header says, in bytes. */
  lemma AddressingIs(packet: Bytes)
    ensures AddressingOf(packet).Some? <==> HasHeader(packet)
    ensures HasHeader(packet) ==>
      var info := AddressingOf(packet).value;
      && Packed(info.source) == packet[12..16] && Packed(info.destination) == packet[16..20]
      && info.protocol == packet[9] && info.delivery == GoesTo(packet[16..20])
      && (IsMemberAddress(info.source) <==> IsHost(packet[12..16]))
  {
    HeaderMeaning(packet);
    if HasHeader(packet) {
      var header := ParseHeader(packet).value;
      HostIsMember(header.source);
      HostIsMember(header.destination);
    }
  }

  /** Exactly which packets of its own Windows a member at `a` sends, and how. */
  lemma OutgoingExactly(packet: Bytes, a: Address)
    ensures Outgoing(packet, Some(a)).Some? <==>
      && HasHeader(packet) && packet[12..16] == Packed(a) && packet[16..20] != Packed(a) && packet[9] != 2
      && GoesTo(packet[16..20]).Some?
    ensures Outgoing(packet, Some(a)).Some? ==>
      var info := Outgoing(packet, Some(a)).value;
      info.delivery == GoesTo(packet[16..20]) && Packed(info.destination) == packet[16..20]
    ensures Outgoing(packet, None).None?
  {
    hide HasHeader, GoesTo, AddressingOf, Packed;
    AddressingIs(packet);
    if HasHeader(packet) {
      var info := AddressingOf(packet).value;
      PackedSame(info.source, a);
      PackedSame(info.destination, a);
    }
  }

  /** Exactly which packets are delivered at `local`, from whomever. */
  predicate Deliverable(packet: Bytes, local: Address) {
    && HasHeader(packet) && IsHost(packet[12..16]) && packet[12..16] != Packed(local) && packet[9] != 2
    && (GoesTo(packet[16..20]) == Some(Unicast) ==> packet[16..20] == Packed(local))
  }

  lemma DeliverableFits(packet: Bytes, local: Address)
    ensures Deliverable(packet, local) ==> |packet| >= 20
  {
  }

  lemma DeliverExactly(packet: Bytes, local: Address, sender: Option<Address>)
    ensures MayDeliver(packet, Some(local), sender) ==
      if Deliverable(packet, local) && (sender.Some? ==> packet[12..16] == Packed(sender.value))
      then GoesTo(packet[16..20]) else None
  {
    hide HasHeader, GoesTo, AddressingOf, Packed, IsHost, IsMemberAddress;
    AddressingIs(packet);
    if HasHeader(packet) {
      var info := AddressingOf(packet).value;
      PackedSame(info.source, local);
      PackedSame(info.destination, local);
      if sender.Some? {
        PackedSame(info.source, sender.value);
      }
    }
  }

  /** Exactly which packets a member at `local` takes from the one at `a`, and how. */
  lemma AcceptsExactly(packet: Bytes, a: Address, local: Address)
    ensures AcceptsPacket(packet, Some(a), Some(local)) ==
      if Deliverable(packet, local) && packet[12..16] == Packed(a) then GoesTo(packet[16..20]) else None
    ensures AcceptsPacket(packet, None, Some(local)).None? && AcceptsPacket(packet, Some(a), None).None?
  {
    DeliverExactly(packet, local, Some(a));
  }

  /** Exactly which packets the elevated helper writes to an adapter at `a`. */
  lemma WritesExactly(packet: Bytes, a: Address)
    ensures MayWrite(packet, a) <==> Deliverable(packet, a) && GoesTo(packet[16..20]).Some?
  {
    DeliverExactly(packet, a, None);
  }

  // Two kinds of messages

  function Characters(data: Bytes): string { seq(|data|, i requires 0 <= i < |data| => data[i] as char) }

  /** A message that carries a packet is never a control message, and the other way round:
      the first byte decides. */
  lemma KindsAreDisjoint(data: Bytes, m: Access.Message)
    ensures PacketPayload(data).Some? ==> Access.ParseMessage(Characters(data)).None?
    ensures Characters(data) == Access.Print(m) ==> PacketPayload(data).None?
  {
    var text := Characters(data);
    if Access.ParseMessage(text).Some? {
      Access.ParsedIsSendable(text);
      assert text[0] == text[..|Access.PREFIX|][0] == 'S';
    }
    if text == Access.Print(m) {
      Access.PrintedPrefix(m);
      assert text[0] == text[..|Access.PREFIX|][0] == 'S';
    }
  }

  lemma PayloadInverse(packet: Bytes)
    ensures PacketPayload(PacketMessage(packet)) == Some(packet)
  {
  }

  // One hop

  /** The three rules agree on every byte string: what a member at b takes from the one at
      a is exactly what a may send that is for b or for everybody, in the same way of
      delivery, and the helper at b lets it through. */
  lemma RulesAgree(packet: Bytes, a: Address, b: Address)
    requires IsMemberAddress(a) && a != b
    ensures AcceptsPacket(packet, Some(a), Some(b)) ==
      match Outgoing(packet, Some(a))
      case None => None
      case Some(info) => if info.delivery == Some(Unicast) && info.destination != b then None else info.delivery
    ensures AcceptsPacket(packet, Some(a), Some(b)).Some? ==> MayWrite(packet, b)
  {
  }

  /** The helper is no narrower than the app: it writes exactly what some member's packets
      would be accepted as, and the app only asks for those of the member it came from. */
  lemma HelperAgrees(packet: Bytes, b: Address)
    ensures MayWrite(packet, b) <==> exists a :: AcceptsPacket(packet, Some(a), Some(b)).Some?
  {
    if MayWrite(packet, b) {
      var info := AddressingOf(packet).value;
      assert AcceptsPacket(packet, Some(info.source), Some(b)).Some?;
    }
  }

  /** Whatever a member accepts it never sends on, even if Windows hands it back. */
  lemma AcceptedStays(packet: Bytes, sender: Option<Address>, local: Option<Address>)
    requires AcceptsPacket(packet, sender, local).Some?
    ensures Outgoing(packet, local).None?
  {
  }

  /** The helper passes every packet on that the app could send. */
  lemma HelperReadsAll(packet: Bytes, local: Option<Address>)
    requires Outgoing(packet, local).Some?
    ensures IpVersion(packet) == Some(4)
  {
  }

  // Where the copies go

  function AddressIn(r: Roster, id: SteamId): Option<Address> { if id in r then Some(r[id]) else None }

  datatype Dispatch =
    | Unroutable
    | UnknownDestination
    | NoRecipients
    | Recipients(delivery: Delivery, ids: seq<SteamId>)

  function Owners(r: Roster, local: SteamId, destination: Address): set<SteamId> {
    set id | id in r && r[id] == destination && id != local
  }

  function Others(r: Roster, local: SteamId, connected: set<SteamId>): set<SteamId> {
    set id | id in connected && id in r && id != local
  }

  /** Whom `send_packet` picks for a packet from the local adapter. */
  function DispatchOf(packet: Bytes, r: Roster, local: SteamId, connected: set<SteamId>): Dispatch {
    match Outgoing(packet, AddressIn(r, local))
    case None => Unroutable
    case Some(info) =>
      if info.delivery == Some(Unicast) then
        var owners := Owners(r, local, info.destination);
        if owners == {} then UnknownDestination else Recipients(Unicast, [Least(owners)])
      else
        var others := Others(r, local, connected);
        if others == {} then NoRecipients else Recipients(info.delivery.value, SortedIds(others))
  }

  lemma GoesIs(b: Bytes)
    ensures GoesTo(b) == Some(Unicast) <==> IsHost(b)
  {
  }

  /** Why a packet goes to nobody, told of the bytes: it may not be sent; nobody else has the
      address it is for; or it is for all and nobody is there. */
  lemma DispatchExactly(packet: Bytes, r: Roster, local: SteamId, connected: set<SteamId>)
    requires Valid(r)
    ensures var d, b := DispatchOf(packet, r, local, connected), if |packet| >= 20 then packet[16..20] else [];
      var sent := local in r && Outgoing(packet, Some(r[local])).Some?;
      && (d.Unroutable? <==> !sent)
      && (d.UnknownDestination? <==> sent && IsHost(b) && forall x :: x in r && x != local ==> Packed(r[x]) != b)
      && (d.NoRecipients? <==> sent && !IsHost(b) && forall x :: x in r && x != local ==> x !in connected)
      && (d.Recipients? ==> d.ids != [] && Some(d.delivery) == GoesTo(b))
  {
    hide GoesTo, Outgoing, Packed;
    OutgoingExactly(packet, if local in r then r[local] else 0);
    if local in r {
      var info := Outgoing(packet, Some(r[local]));
      if info.Some? {
        GoesIs(packet[16..20]);
        forall x | x in r ensures Packed(r[x]) == packet[16..20] <==> r[x] == info.value.destination {
          PackedSame(r[x], info.value.destination);
        }
        var owners, others := Owners(r, local, info.value.destination), Others(r, local, connected);
        assert forall x :: x in owners <==> x in r && x != local && r[x] == info.value.destination;
        assert forall x :: x in others <==> x in r && x != local && x in connected;
        SortedMembers(others);
      }
    }
  }

  /** The members a copy goes out to: those picked that are connected. */
  function Copied(packet: Bytes, r: Roster, local: SteamId, connected: set<SteamId>): set<SteamId> {
    match DispatchOf(packet, r, local, connected)
    case Recipients(_, ids) => set id | id in ids && id in connected
    case _ => {}
  }

  /** How the member `to` may write a packet that came from `from`, by its own roster. */
  function AcceptedBy(packet: Bytes, r: Roster, from: SteamId, to: SteamId): Option<Delivery> {
    AcceptsPacket(packet, if from != to then AddressIn(r, from) else None, AddressIn(r, to))
  }

  /** A one-to-one roster has at most one owner for an address. */
  lemma OwnersOne(r: Roster, local: SteamId, destination: Address, to: SteamId)
    requires Valid(r) && to in r && to != local
    ensures r[to] == destination ==> Owners(r, local, destination) != {} && Least(Owners(r, local, destination)) == to
    ensures r[to] != destination ==> to !in Owners(r, local, destination)
  {
    if r[to] == destination {
      assert to in Owners(r, local, destination);
    }
  }

  /** A copy goes to exactly the connected members that would accept it, by the sender's
      own roster: nobody else gets one, and none of them is missed. */
  lemma CopiedExactly(packet: Bytes, r: Roster, local: SteamId, connected: set<SteamId>, to: SteamId)
    requires Valid(r) && to in connected && to != local
    ensures to in Copied(packet, r, local, connected) <==> AcceptedBy(packet, r, local, to).Some?
  {
    if local in r && to in r {
      RulesAgree(packet, r[local], r[to]);
      var info := Outgoing(packet, Some(r[local]));
      if info.Some? {
        OwnersOne(r, local, info.value.destination, to);
        SortedMembers(Others(r, local, connected));
      }
    } else if local in r {
      SortedMembers(Others(r, local, connected));
    }
  }

  /** The same told of the bytes: what a member's own Windows sends reaches every connected
      member if it is for everybody or a group, and exactly the one it is for otherwise. */
  lemma CopiedByBytes(packet: Bytes, r: Roster, local: SteamId, connected: set<SteamId>, to: SteamId)
    requires Valid(r) && to in connected && to != local && local in r
    ensures to in Copied(packet, r, local, connected) <==>
      && HasHeader(packet) && packet[12..16] == Packed(r[local]) && packet[9] != 2 && to in r
      && GoesTo(packet[16..20]).Some? && (GoesTo(packet[16..20]) == Some(Unicast) ==> packet[16..20] == Packed(r[to]))
  {
    hide Copied, HasHeader, GoesTo, Packed;
    CopiedExactly(packet, r, local, connected, to);
    if to in r {
      AcceptsExactly(packet, r[local], r[to]);
      HostIsMember(r[local]);
      PackedSame(r[local], r[to]);
    }
  }

  /** A recipient whose roster has both addresses the same accepts its copy, delivered the
      way it was sent, and its helper writes it. */
  lemma CopyIsWritten(packet: Bytes, r: Roster, s: Roster, from: SteamId, to: SteamId, connected: set<SteamId>)
    requires Valid(r) && to in Copied(packet, r, from, connected) && to != from
    requires AddressIn(r, from) == AddressIn(s, from) && AddressIn(r, to) == AddressIn(s, to)
    ensures AcceptedBy(packet, s, from, to).Some? && MayWrite(packet, s[to])
    ensures AcceptedBy(packet, s, from, to) == Some(DispatchOf(packet, r, from, connected).delivery)
    ensures AcceptedBy(packet, s, from, to) == Outgoing(packet, AddressIn(r, from)).value.delivery
  {
    CopiedExactly(packet, r, from, connected, to);
    RulesAgree(packet, r[from], r[to]);
  }

  // Packets on the wire, over whole runs

  datatype Node = Node(roster: Roster, connected: set<SteamId>)

  datatype Copy = Copy(from: SteamId, to: SteamId, packet: Bytes)

  /** A copy handed to Windows, with the roster it was accepted by. */
  datatype Handed = Handed(copy: Copy, roster: Roster)

  /** The members, what each one's Windows sent into its adapter, and the copies on their
      way and handed to the Windows at the other end. */
  datatype Wire = Wire(
    nodes: map<SteamId, Node>,
    read: multiset<(SteamId, Bytes)>,
    flight: multiset<Copy>,
    handed: seq<Handed>)

  datatype Event =
    | Changes(who: SteamId, node: Node)
    | Sends(who: SteamId, packet: Bytes)
    | Arrives(copy: Copy)
    | Vanishes(copy: Copy)

  function CopiesOf(node: Node, who: SteamId, packet: Bytes): set<Copy> {
    set to | to in Copied(packet, node.roster, who, node.connected) :: Copy(who, to, packet)
  }

  /** What arrives is handed to Windows only if the member and its helper both let it. */
  predicate Lets(w: Wire, c: Copy) {
    c.to in w.nodes
    && AcceptedBy(c.packet, w.nodes[c.to].roster, c.from, c.to).Some?
    && MayWrite(c.packet, w.nodes[c.to].roster[c.to])
  }

  predicate Happens(w: Wire, e: Event) {
    match e
    case Changes(_, _) => true
    case Sends(who, _) => who in w.nodes
    case Arrives(copy) => copy in w.flight
    case Vanishes(copy) => copy in w.flight
  }

  function Next(w: Wire, e: Event): Wire
    requires Happens(w, e)
  {
    match e
    case Changes(who, node) => w.(nodes := w.nodes[who := node])
    case Sends(who, packet) =>
      w.(read := w.read + multiset{(who, packet)},
         flight := w.flight + multiset(CopiesOf(w.nodes[who], who, packet)))
    case Arrives(copy) =>
      var rest := w.(flight := w.flight - multiset{copy});
      if Lets(w, copy) then rest.(handed := w.handed + [Handed(copy, w.nodes[copy.to].roster)]) else rest
    case Vanishes(copy) => w.(flight := w.flight - multiset{copy})
  }

  predicate HappensAll(w: Wire, events: seq<Event>)
    decreases |events|
  {
    events == [] || (Happens(w, events[0]) && HappensAll(Next(w, events[0]), events[1..]))
  }

  function After(w: Wire, events: seq<Event>): Wire
    requires HappensAll(w, events)
    decreases |events|
  {
    if events == [] then w else After(Next(w, events[0]), events[1..])
  }

  /** How often a copy was handed to Windows. */
  function Count(handed: seq<Handed>, c: Copy): nat
    decreases |handed|
  {
    if handed == [] then 0
    else Count(handed[..|handed| - 1], c) + (if handed[|handed| - 1].copy == c then 1 else 0)
  }

  /** The source of a packet is the address of the member it came from. */
  ghost predicate FromOwner(h: Handed) {
    var info := AddressingOf(h.copy.packet);
    && h.copy.from in h.roster && h.copy.to in h.roster && h.copy.from != h.copy.to
    && info.Some? && info.value.source == h.roster[h.copy.from]
    && (info.value.delivery == Some(Unicast) ==> info.value.destination == h.roster[h.copy.to])
    && Outgoing(h.copy.packet, Some(h.roster[h.copy.to])).None?
  }

  /** Every copy handed or on its way stands for one reading of exactly that packet from
      its sender's Windows, and each reading makes at most one per recipient. */
  ghost predicate Honest(w: Wire) {
    && (forall c :: w.flight[c] + Count(w.handed, c) <= w.read[(c.from, c.packet)])
    && (forall i :: 0 <= i < |w.handed| ==> FromOwner(w.handed[i]))
  }

  /** One reading of a packet pays for one copy more to each recipient. */
  lemma SendBounded(w: Wire, who: SteamId, packet: Bytes, c: Copy)
    requires who in w.nodes && w.flight[c] + Count(w.handed, c) <= w.read[(c.from, c.packet)]
    ensures var t := Next(w, Sends(who, packet)); t.flight[c] + Count(t.handed, c) <= t.read[(c.from, c.packet)]
  {
  }

  lemma CountMore(handed: seq<Handed>, h: Handed, c: Copy)
    ensures Count(handed + [h], c) == Count(handed, c) + if h.copy == c then 1 else 0
  {
    assert (handed + [h])[..|handed|] == handed;
  }

  lemma LetsMember(w: Wire, copy: Copy)
    requires Lets(w, copy)
    ensures copy.to in w.nodes
  {
  }

  /** Handing a copy over takes it off the wire. */
  lemma ArriveBounded(w: Wire, copy: Copy, c: Copy)
    requires copy in w.flight && w.flight[c] + Count(w.handed, c) <= w.read[(c.from, c.packet)]
    ensures var t := Next(w, Arrives(copy)); t.flight[c] + Count(t.handed, c) <= t.read[(c.from, c.packet)]
  {
    hide Lets, Count, Copied;
    if Lets(w, copy) {
      LetsMember(w, copy);
      CountMore(w.handed, Handed(copy, w.nodes[copy.to].roster), c);
    }
  }

  lemma NextOwned(w: Wire, copy: Copy)
    requires Happens(w, Arrives(copy)) && Lets(w, copy)
    ensures FromOwner(Handed(copy, w.nodes[copy.to].roster))
  {
  }

  lemma NextBounded(w: Wire, e: Event, c: Copy)
    requires Honest(w) && Happens(w, e)
    ensures Next(w, e).flight[c] + Count(Next(w, e).handed, c) <= Next(w, e).read[(c.from, c.packet)]
  {
    hide Copied, Lets, Count, FromOwner;
    match e
    case Changes(_, _) =>
    case Sends(who, packet) => SendBounded(w, who, packet, c);
    case Arrives(copy) => ArriveBounded(w, copy, c);
    case Vanishes(_) =>
  }

  lemma NextHonest(w: Wire, e: Event)
    requires Honest(w) && Happens(w, e)
    ensures Honest(Next(w, e))
  {
    hide Copied, Lets, Count, FromOwner;
    forall c: Copy ensures Next(w, e).flight[c] + Count(Next(w, e).handed, c) <= Next(w, e).read[(c.from, c.packet)] {
      NextBounded(w, e, c);
    }
    if e.Arrives? && Lets(w, e.copy) {
      NextOwned(w, e.copy);
    }
  }

  /** Over every run of sends, losses, arrivals and changing rosters: each packet handed to
      a member's Windows was read, byte for byte, from the Windows of the member that owns
      its source address, at most once per recipient for each time it was read, and could
      not be sent on from there. */
  lemma {:induction false} OneHop(w: Wire, events: seq<Event>)
    requires Honest(w) && HappensAll(w, events)
    ensures Honest(After(w, events))
    decreases |events|
  {
    if events != [] {
      NextHonest(w, events[0]);
      OneHop(Next(w, events[0]), events[1..]);
    }
  }

  function Begin(nodes: map<SteamId, Node>): Wire { Wire(nodes, multiset{}, multiset{}, []) }

  lemma {:induction false} CountPositive(handed: seq<Handed>, i: nat)
    requires i < |handed|
    ensures Count(handed, handed[i].copy) > 0
    decreases |handed|
  {
    if i < |handed| - 1 {
      CountPositive(handed[..|handed| - 1], i);
    }
  }

  /** The same, told of one handed packet: its source is the address of the member it came
      from, that member's Windows sent exactly these bytes, at least as often as they were
      handed to this recipient, and the recipient never sends them on. */
  lemma HandedWasSent(nodes: map<SteamId, Node>, events: seq<Event>, i: nat)
    requires HappensAll(Begin(nodes), events) && i < |After(Begin(nodes), events).handed|
    ensures var w := After(Begin(nodes), events);
      var c := w.handed[i].copy;
      FromOwner(w.handed[i]) && 0 < Count(w.handed, c) <= w.read[(c.from, c.packet)]
  {
    OneHop(Begin(nodes), events);
    CountPositive(After(Begin(nodes), events).handed, i);
  }

  /** Whatever arrives, or gets lost, is off the wire, and what its recipient refuses is handed
      to nobody. */
  lemma RefusedIsGone(w: Wire, c: Copy)
    requires c in w.flight
    ensures Next(w, Vanishes(c)) == w.(flight := w.flight - multiset{c})
    ensures !(c.to in w.nodes && AcceptedBy(c.packet, w.nodes[c.to].roster, c.from, c.to).Some?) ==>
      Next(w, Arrives(c)) == w.(flight := w.flight - multiset{c})
  {
  }

  /** And what is sent can be handed: a copy that goes out and arrives, between members whose
      rosters have both addresses the same, ends at the recipient's Windows. */
  lemma SentIsHanded(w: Wire, from: SteamId, to: SteamId, packet: Bytes)
    requires from in w.nodes && to in w.nodes && from != to && Valid(w.nodes[from].roster)
    requires to in Copied(packet, w.nodes[from].roster, from, w.nodes[from].connected)
    requires AddressIn(w.nodes[from].roster, from) == AddressIn(w.nodes[to].roster, from)
    requires AddressIn(w.nodes[from].roster, to) == AddressIn(w.nodes[to].roster, to)
    ensures var events, c := [Sends(from, packet), Arrives(Copy(from, to, packet))], Copy(from, to, packet);
      && HappensAll(w, events) && Count(After(w, events).handed, c) == Count(w.handed, c) + 1
      && After(w, events).flight[c] == w.flight[c]
  {
    hide Copied, Count, AcceptedBy, MayWrite;
    var c := Copy(from, to, packet);
    CopyIsWritten(packet, w.nodes[from].roster, w.nodes[to].roster, from, to, w.nodes[from].connected);
    var w1 := Next(w, Sends(from, packet));
    assert c in CopiesOf(w.nodes[from], from, packet);
    assert c in w1.flight;
    CountMore(w.handed, Handed(c, w.nodes[to].roster), c);
    assert Lets(w1, c);
    var events := [Sends(from, packet), Arrives(c)];
    var w2 := Next(w1, Arrives(c));
    assert events[1..] == [Arrives(c)] && events[1..][0] == Arrives(c) && events[1..][1..] == [];
    assert HappensAll(w2, []) && After(w2, []) == w2;
    assert HappensAll(w1, events[1..]) && After(w1, events[1..]) == w2;
  }
}
