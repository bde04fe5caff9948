/**
 The virtual network's addresses and the part of the IPv4 header that decides
 who a packet is for (src/steamlan/adapter/ipv4.py; header layout of section
 3.1 of RFC 791).
 */
module Ipv4 {
  import opened Basics

  type Byte = x: int | 0 <= x < 256
  type Bytes = seq<Byte>
  type Address = x: int | 0 <= x < 0x1_0000_0000

  // 10.77.0.0/24: the 24-bit prefix, and the two addresses no member has.
  const PREFIX := 0x0A4D00
  const NETWORK_ADDRESS: Address := 0x0A4D_0000
  const NETWORK_BROADCAST: Address := 0x0A4D_00FF
  const LIMITED_BROADCAST: Address := 0xFFFF_FFFF
  const ICMP := 1
  const IGMP := 2

  predicate InNetwork(a: Address) { a / 256 == PREFIX }

  predicate IsMulticast(a: Address) { a / 0x1000_0000 == 0xE }

  predicate IsMemberAddress(a: Address) {
    InNetwork(a) && a != NETWORK_ADDRESS && a != NETWORK_BROADCAST
  }

  datatype Delivery = Unicast | Broadcast | Multicast

  datatype Header = Header(
    source: Address, destination: Address, protocol: Byte, headerLength: nat, totalLength: nat)

  datatype Addressing = Addressing(
    source: Address, destination: Address, protocol: Byte, delivery: Option<Delivery>)

  /** Big-endian numbers of two and four bytes. */
  function Number16(hi: Byte, lo: Byte): (n: nat)
    ensures n < 0x1_0000
  {
    hi * 256 + lo
  }

  function Number32(a: Byte, b: Byte, c: Byte, d: Byte): Address {
    ((a * 256 + b) * 256 + c) * 256 + d
  }

  /** The four bytes of an address, as `IPv4Address.packed` gives them. */
  function Packed(a: Address): (bytes: Bytes)
    ensures |bytes| == 4
  {
    [a / 0x100_0000, a / 0x1_0000 % 256, a / 0x100 % 256, a % 256]
  }

  lemma PackedInverse(a: Address)
    ensures var p := Packed(a); Number32(p[0], p[1], p[2], p[3]) == a
  {
    assert a / 0x1_0000 == a / 0x100_0000 * 256 + a / 0x1_0000 % 256;
    assert a / 0x100 == a / 0x1_0000 * 256 + a / 0x100 % 256;
    assert a == a / 0x100 * 256 + a % 256;
  }

  lemma Digit(n: nat, d: Byte)
    ensures (n * 256 + d) / 256 == n && (n * 256 + d) % 256 == d
  {
  }

  lemma NumberInverse(a: Byte, b: Byte, c: Byte, d: Byte)
    ensures Packed(Number32(a, b, c, d)) == [a, b, c, d]
  {
    Digit(a * 256 + b, c);
    Digit((a * 256 + b) * 256 + c, d);
    Digit(a, b);
    var n := Number32(a, b, c, d);
    assert n / 0x100 == (a * 256 + b) * 256 + c;
    assert n / 0x1_0000 == n / 0x100 / 0x100 && n / 0x100_0000 == n / 0x1_0000 / 0x100;
  }

  /** The header, or an error naming what doesn't fit the packet. */
  function ParseHeader(packet: Bytes): (r: Result<Header>)
    ensures r.Ok? ==>
      && 20 <= r.value.headerLength <= r.value.totalLength <= |packet|
      && r.value.totalLength < 0x1_0000
  {
    if |packet| < 20 then Error("too short for an IPv4 header")
    else if packet[0] / 16 != 4 then Error("not an IPv4 packet")
    else
      var headerLength := packet[0] % 16 * 4;
      if headerLength < 20 || headerLength > |packet| then Error("bad IPv4 header length")
      else
        var totalLength := Number16(packet[2], packet[3]);
        if totalLength < headerLength || totalLength > |packet| then Error("bad IPv4 total length")
        else
          Ok(Header(
            Number32(packet[12], packet[13], packet[14], packet[15]),
            Number32(packet[16], packet[17], packet[18], packet[19]),
            packet[9], headerLength, totalLength))
  }

  /** What a packet needs to have a header, and that the header is what its bytes say. */
  lemma HeaderMeaning(packet: Bytes)
    ensures ParseHeader(packet).Ok? <==>
      && |packet| >= 20 && packet[0] / 16 == 4
      && 20 <= packet[0] % 16 * 4 <= Number16(packet[2], packet[3]) <= |packet|
    ensures ParseHeader(packet).Ok? ==>
      var h := ParseHeader(packet).value;
      && Packed(h.source) == packet[12..16] && Packed(h.destination) == packet[16..20]
      && h.protocol == packet[9] && h.headerLength == packet[0] % 16 * 4
      && h.totalLength / 256 == packet[2] && h.totalLength % 256 == packet[3]
  {
    if ParseHeader(packet).Ok? {
      NumberInverse(packet[12], packet[13], packet[14], packet[15]);
      NumberInverse(packet[16], packet[17], packet[18], packet[19]);
    }
  }

  function IpVersion(packet: Bytes): Option<int> {
    if packet == [] then None else Some(packet[0] / 16)
  }

  function DeliveryOf(destination: Address): Option<Delivery> {
    if destination == NETWORK_BROADCAST || destination == LIMITED_BROADCAST then Some(Broadcast)
    else if IsMulticast(destination) then Some(Multicast)
    else if IsMemberAddress(destination) then Some(Unicast)
    else None
  }

  function AddressingOf(packet: Bytes): Option<Addressing> {
    match ParseHeader(packet)
    case Error(_) => None
    case Ok(header) =>
      Some(Addressing(header.source, header.destination, header.protocol, DeliveryOf(header.destination)))
  }

  /** How a packet from another member may be handed to Windows; None if it may not. */
  function MayDeliver(packet: Bytes, local: Option<Address>, sender: Option<Address>): Option<Delivery> {
    var addressing := AddressingOf(packet);
    if addressing.None? || addressing.value.delivery.None? || local.None? then None
    else
      var info := addressing.value;
      if !IsMemberAddress(info.source) || info.source == local.value then None
      else if sender.Some? && info.source != sender.value then None
      else if info.protocol == IGMP then None
      else if info.delivery == Some(Unicast) && info.destination != local.value then None
      else info.delivery
  }
}
