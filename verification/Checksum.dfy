/**
 The Internet checksum (section 1 of RFC 1071) and the answer to a ping
 (scripts/check_adapter.py).
 */
module Checksum {
  import opened Basics
  import opened Ipv4

  const OWN_ADDRESS: Address := 0x0A4D_0001
  const ECHO_REQUEST := 8
  const ECHO_REPLY := 0

  function Padded(data: Bytes): (r: Bytes)
    ensures |r| % 2 == 0
  {
    if |data| % 2 == 1 then data + [0] else data
  }

  function WordSum(words: Bytes): nat
    requires |words| % 2 == 0
  {
    if words == [] then 0 else Number16(words[0], words[1]) + WordSum(words[2..])
  }

  lemma FoldOnce(total: nat)
    requires total >= 0x1_0000
    ensures 0 < total % 0x1_0000 + total / 0x1_0000 < total
    ensures (total % 0x1_0000 + total / 0x1_0000) % 0xFFFF == total % 0xFFFF
  {
  }

  function Fold(total: nat): (r: nat)
    ensures r < 0x1_0000
    ensures r % 0xFFFF == total % 0xFFFF
    ensures r == 0 <==> total == 0
  {
    if total < 0x1_0000 then total
    else
      FoldOnce(total);
      Fold(total % 0x1_0000 + total / 0x1_0000)
  }

  lemma SameRemainder(times: nat, rest: nat)
    ensures (0xFFFF * times + rest) % 0xFFFF == rest % 0xFFFF
  {
  }

  function ChecksumOf(data: Bytes): (c: nat)
    ensures c <= 0xFFFF
  {
    0xFFFF - Fold(WordSum(Padded(data)))
  }

  /** What the bytes add up to: those at even places count 256 times. */
  function ByteSum(data: Bytes): nat {
    if data == [] then 0
    else
      var k := |data| - 1;
      var last: nat := data[k];
      ByteSum(data[..k]) + if k % 2 == 0 then 256 * last else last
  }

  lemma OneMore(data: Bytes, b: Byte)
    ensures ByteSum(data + [b]) == ByteSum(data) + if |data| % 2 == 0 then 256 * b else b
  {
    assert (data + [b])[..|data|] == data;
  }

  lemma TwoMore(data: Bytes, hi: Byte, lo: Byte)
    requires |data| % 2 == 0
    ensures ByteSum(data + [hi, lo]) == ByteSum(data) + Number16(hi, lo)
  {
    hide ByteSum;
    OneMore(data, hi);
    OneMore(data + [hi], lo);
    assert data + [hi] + [lo] == data + [hi, lo];
  }

  lemma {:induction false} WordSumConcat(a: Bytes, b: Bytes)
    requires |a| % 2 == 0 && |b| % 2 == 0
    ensures WordSum(a + b) == WordSum(a) + WordSum(b)
    decreases |a|
  {
    hide Number16;
    if a == [] {
      assert a + b == b;
    } else {
      assert (a + b)[2..] == a[2..] + b;
      WordSumConcat(a[2..], b);
    }
  }

  lemma {:induction false} WordBytes(words: Bytes)
    requires |words| % 2 == 0
    ensures WordSum(words) == ByteSum(words)
    decreases |words|
  {
    if words != [] {
      var n := |words| - 2;
      var hi, lo := words[n], words[n + 1];
      WordBytes(words[..n]);
      WordSumConcat(words[..n], [hi, lo]);
      assert words == words[..n] + [hi, lo] && [hi, lo][2..] == [];
      TwoMore(words[..n], hi, lo);
    }
  }

  /** The words add up to what the bytes do: the padding adds nothing, and a byte left over
      is the high one of its word. */
  lemma SumOfBytes(data: Bytes)
    ensures WordSum(Padded(data)) == ByteSum(data)
  {
    WordBytes(Padded(data));
    if |data| % 2 == 1 {
      assert Padded(data)[..|data|] == data;
    }
  }

  /** The checksum as the one number it can be: nothing about folding is left in it. */
  lemma ChecksumMeaning(data: Bytes)
    ensures var total := ByteSum(data);
      ChecksumOf(data) ==
        if total == 0 then 0xFFFF else if total % 0xFFFF == 0 then 0 else 0xFFFF - total % 0xFFFF
  {
    hide WordSum, ByteSum, Padded;
    SumOfBytes(data);
  }

  method SumWords(words: Bytes) returns (total: nat)
    requires |words| % 2 == 0
    ensures total == WordSum(words)
  {
    hide Number16;
    total := 0;
    var i := 0;
    while i < |words|
      invariant 0 <= i <= |words| && i % 2 == 0
      invariant total + WordSum(words[i..]) == WordSum(words)
    {
      assert words[i..][2..] == words[i + 2..];
      total := total + Number16(words[i], words[i + 1]);
      i := i + 2;
    }
  }

  method FoldCarries(sum: nat) returns (total: nat)
    ensures total == Fold(sum)
  {
    total := sum;
    while total >= 0x1_0000
      invariant Fold(total) == Fold(sum)
      decreases total
    {
      FoldOnce(total);
      total := total % 0x1_0000 + total / 0x1_0000;
    }
  }

  /** `checksum`: summing the words, folding the carries, and the complement. */
  method Checksum(data: Bytes) returns (c: nat)
    ensures c == ChecksumOf(data)
  {
    var total := SumWords(Padded(data));
    total := FoldCarries(total);
    c := 0xFFFF - total;
  }

  // Writing the checksum

  /** data with bytes written over it from at on. */
  function Splice(data: Bytes, at: nat, bytes: Bytes): (r: Bytes)
    requires at + |bytes| <= |data|
    ensures |r| == |data|
    ensures forall i :: 0 <= i < |r| ==> r[i] == if at <= i < at + |bytes| then bytes[i - at] else data[i]
  {
    data[..at] + bytes + data[at + |bytes|..]
  }

  function Put16(data: Bytes, at: nat, n: nat): (r: Bytes)
    requires at + 2 <= |data| && n < 0x1_0000
    ensures |r| == |data|
  {
    Splice(data, at, [n / 256, n % 256])
  }

  lemma FirstWord(hi: Byte, lo: Byte, tail: Bytes)
    requires |tail| % 2 == 0
    ensures WordSum([hi, lo] + tail) == Number16(hi, lo) + WordSum(tail)
  {
  }

  lemma SplitSum(head: Bytes, hi: Byte, lo: Byte, tail: Bytes)
    requires |head| % 2 == 0 && |tail| % 2 == 0
    ensures WordSum(head + ([hi, lo] + tail)) == WordSum(head) + Number16(hi, lo) + WordSum(tail)
  {
    hide Number16, WordSum;
    WordSumConcat(head, [hi, lo] + tail);
    FirstWord(hi, lo, tail);
  }

  function Rest(data: Bytes, at: nat): Bytes
    requires at + 2 <= |data|
  {
    data[at + 2..] + if |data| % 2 == 1 then [0] else []
  }

  lemma PaddedAt(data: Bytes, at: nat)
    requires at + 2 <= |data|
    ensures Padded(data) == data[..at] + ([data[at], data[at + 1]] + Rest(data, at))
  {
    assert data == data[..at] + ([data[at], data[at + 1]] + data[at + 2..]);
  }

  lemma PaddedEven(data: Bytes, at: nat)
    requires at + 2 <= |data| && at % 2 == 0
    ensures |Rest(data, at)| % 2 == 0
  {
  }

  lemma PutParts(data: Bytes, at: nat, n: nat)
    requires at + 2 <= |data| && n < 0x1_0000
    ensures var put := Put16(data, at, n);
      put[..at] == data[..at] && put[at] == n / 256 && put[at + 1] == n % 256 && Rest(put, at) == Rest(data, at)
  {
  }

  /** A number written over two zero bytes at an even offset adds to the sum. */
  lemma PutAdds(data: Bytes, at: nat, n: nat)
    requires at + 2 <= |data| && at % 2 == 0 && n < 0x1_0000 && data[at] == 0 && data[at + 1] == 0
    ensures WordSum(Padded(Put16(data, at, n))) == WordSum(Padded(data)) + n
  {
    hide WordSum, Padded, Put16;
    PaddedAt(data, at);
    PaddedAt(Put16(data, at, n), at);
    PutParts(data, at, n);
    var head, tail := data[..at], Rest(data, at);
    PaddedEven(data, at);
    SplitSum(head, 0, 0, tail);
    SplitSum(head, n / 256, n % 256, tail);
  }

  lemma {:induction false} FoldShrinks(total: nat)
    ensures Fold(total) <= total
    decreases total
  {
  }

  lemma ComplementFolds(total: nat)
    ensures Fold(total + (0xFFFF - Fold(total))) == 0xFFFF
  {
    var folded := Fold(total);
    var sum := total + (0xFFFF - folded);
    var a, b := total / 0xFFFF, folded / 0xFFFF;
    assert total == 0xFFFF * a + total % 0xFFFF && folded == 0xFFFF * b + folded % 0xFFFF;
    assert sum == 0xFFFF * (a - b + 1);
    assert a >= b by {
      assert folded <= total by { FoldShrinks(total); }
    }
    SameRemainder(a - b + 1, 0);
  }

  /** What a checksum is for: once it is written into its zeroed field, the checksum over
      everything is 0, whatever the data and its length. */
  lemma WrittenChecks(data: Bytes, at: nat)
    requires at + 2 <= |data| && at % 2 == 0 && data[at] == 0 && data[at + 1] == 0
    ensures ChecksumOf(Put16(data, at, ChecksumOf(data))) == 0
  {
    var total := WordSum(Padded(data));
    var c := ChecksumOf(data);
    PutAdds(data, at, c);
    ComplementFolds(total);
  }

  // Answering a ping

  /** A ping from this machine to another address of the test subnet. */
  predicate IsPing(packet: Bytes) {
    var header := ParseHeader(packet);
    && header.Ok?
    && header.value.protocol == ICMP
    && header.value.source == OWN_ADDRESS
    && InNetwork(header.value.destination)
    && header.value.destination != OWN_ADDRESS && header.value.destination != NETWORK_BROADCAST
    && header.value.totalLength - header.value.headerLength >= 8
    && packet[header.value.headerLength] == ECHO_REQUEST && packet[header.value.headerLength + 1] == 0
  }

  function Body(packet: Bytes): (r: Bytes)
    requires IsPing(packet)
    ensures 8 <= |r| <= 0xFFFF - 20
  {
    var header := ParseHeader(packet).value;
    packet[header.headerLength..header.totalLength]
  }

  function ReplyBody(body: Bytes): Bytes
    requires |body| >= 8
  {
    var zeroed := Splice(Splice(body, 0, [ECHO_REPLY]), 2, [0, 0]);
    Put16(zeroed, 2, ChecksumOf(zeroed))
  }

  /** The header before its checksum: no options, no fragments, a TTL of 64. */
  function BlankHeader(packet: Bytes, source: Address, destination: Address, length: nat): (r: Bytes)
    requires |packet| >= 20 && length < 0x1_0000
    ensures |r| == 20 && r[10] == 0 && r[11] == 0
  {
    var blank := seq(20, _ => 0);
    var sized := Splice(blank, 0, [0x45, packet[1], length / 256, length % 256]);
    var named := Splice(Splice(sized, 4, packet[4..6]), 8, [64, ICMP]);
    Splice(Splice(named, 12, Packed(destination)), 16, Packed(source))
  }

  function ReplyHeader(packet: Bytes, source: Address, destination: Address, length: nat): Bytes
    requires |packet| >= 20 && length < 0x1_0000
  {
    var blank := BlankHeader(packet, source, destination, length);
    Put16(blank, 10, ChecksumOf(blank))
  }

  function EchoReplyOf(packet: Bytes): Option<Bytes> {
    if !IsPing(packet) then None
    else
      var header, body := ParseHeader(packet).value, ReplyBody(Body(packet));
      Some(ReplyHeader(packet, header.source, header.destination, 20 + |body|) + body)
  }

  method WriteAt(a: array<Byte>, at: nat, bytes: Bytes)
    requires at + |bytes| <= a.Length
    modifies a
    ensures a[..] == Splice(old(a[..]), at, bytes)
  {
    for i := 0 to |bytes|
      invariant forall j :: 0 <= j < a.Length ==> a[j] == if at <= j < at + i then bytes[j - at] else old(a[j])
    {
      a[at + i] := bytes[i];
    }
  }

  method WriteBody(body: Bytes) returns (r: Bytes)
    requires |body| >= 8
    ensures r == ReplyBody(body)
  {
    hide Splice;
    var icmp := new Byte[|body|](i requires 0 <= i < |body| => body[i]);
    assert icmp[..] == body;
    WriteAt(icmp, 0, [ECHO_REPLY]);
    WriteAt(icmp, 2, [0, 0]);
    var c := Checksum(icmp[..]);
    WriteAt(icmp, 2, [c / 256, c % 256]);
    r := icmp[..];
  }

  method WriteHeader(packet: Bytes, source: Address, destination: Address, length: nat) returns (r: Bytes)
    requires |packet| >= 20 && length < 0x1_0000
    ensures r == ReplyHeader(packet, source, destination, length)
  {
    hide Splice, Packed, ChecksumOf;
    var reply := new Byte[20](_ => 0);
    assert reply[..] == seq(20, _ => 0);
    WriteAt(reply, 0, [0x45, packet[1], length / 256, length % 256]);
    WriteAt(reply, 4, packet[4..6]);
    WriteAt(reply, 8, [64, ICMP]);
    WriteAt(reply, 12, Packed(destination));
    WriteAt(reply, 16, Packed(source));
    var c := Checksum(reply[..]);
    WriteAt(reply, 10, [c / 256, c % 256]);
    r := reply[..];
  }

  /** `echo_reply`, writing into its two buffers. */
  method EchoReply(packet: Bytes) returns (reply: Option<Bytes>)
    ensures reply == EchoReplyOf(packet)
  {
    if !IsPing(packet) {
      return None;
    }
    var header := ParseHeader(packet).value;
    var icmp := WriteBody(Body(packet));
    var ip := WriteHeader(packet, header.source, header.destination, 20 + |icmp|);
    return Some(ip + icmp);
  }

  lemma NumberIs(a: Byte, b: Byte, c: Byte, d: Byte)
    ensures InNetwork(Number32(a, b, c, d)) <==> a == 10 && b == 77 && c == 0
    ensures InNetwork(Number32(a, b, c, d)) ==> Number32(a, b, c, d) == 0x0A4D_0000 + d
  {
    Digit((a * 256 + b) * 256 + c, d);
  }

  lemma AddressIs(packet: Bytes)
    requires ParseHeader(packet).Ok?
    ensures var h := ParseHeader(packet).value;
      && (h.source == OWN_ADDRESS <==> packet[12..16] == [10, 77, 0, 1])
      && (InNetwork(h.destination) && h.destination != OWN_ADDRESS && h.destination != NETWORK_BROADCAST <==>
        packet[16..19] == [10, 77, 0] && packet[19] != 1 && packet[19] != 255)
  {
    NumberIs(packet[12], packet[13], packet[14], packet[15]);
    NumberIs(packet[16], packet[17], packet[18], packet[19]);
  }

  /** Which packets are answered, on their bytes: an ICMP echo request with a whole header of
      its own, from 10.77.0.1 to any other address of the subnet but its broadcast. */
  lemma AnsweredExactly(packet: Bytes)
    ensures EchoReplyOf(packet).Some? <==>
      && |packet| >= 20 && packet[0] / 16 == 4
      && 20 <= packet[0] % 16 * 4 && packet[0] % 16 * 4 + 8 <= Number16(packet[2], packet[3]) <= |packet|
      && packet[9] == 1 && packet[12..16] == [10, 77, 0, 1]
      && packet[16..19] == [10, 77, 0] && packet[19] != 1 && packet[19] != 255
      && packet[packet[0] % 16 * 4] == 8 && packet[packet[0] % 16 * 4 + 1] == 0
  {
    hide ParseHeader, InNetwork, ReplyBody, ReplyHeader;
    HeaderMeaning(packet);
    if ParseHeader(packet).Ok? {
      AddressIs(packet);
    }
  }

  lemma HeaderBytes(packet: Bytes, source: Address, destination: Address, length: nat)
    requires |packet| >= 20 && length < 0x1_0000
    ensures var ip := ReplyHeader(packet, source, destination, length);
      && |ip| == 20 && ip[0] == 0x45 && ip[1] == packet[1]
      && ip[4..6] == packet[4..6] && ip[6..9] == [0, 0, 64] && Number16(ip[2], ip[3]) == length && ip[9] == ICMP
      && Number32(ip[12], ip[13], ip[14], ip[15]) == destination
      && Number32(ip[16], ip[17], ip[18], ip[19]) == source
  {
    hide Packed, ChecksumOf, Number32;
    PackedInverse(source);
    PackedInverse(destination);
  }

  lemma HeaderParses(packet: Bytes, source: Address, destination: Address, body: Bytes)
    requires |packet| >= 20 && 20 + |body| < 0x1_0000
    ensures var ip := ReplyHeader(packet, source, destination, 20 + |body|);
      |ip| == 20 && ParseHeader(ip + body) == Ok(Header(destination, source, ICMP, 20, 20 + |body|))
  {
    hide ReplyHeader, Number16, Number32;
    HeaderBytes(packet, source, destination, 20 + |body|);
  }

  lemma HeaderCopies(packet: Bytes, source: Address, destination: Address, body: Bytes)
    requires |packet| >= 20 && 20 + |body| < 0x1_0000
    ensures var reply := ReplyHeader(packet, source, destination, 20 + |body|) + body;
      |reply| >= 20 && reply[1] == packet[1] && reply[4..6] == packet[4..6] && reply[6..9] == [0, 0, 64]
  {
    hide ReplyHeader;
    HeaderBytes(packet, source, destination, 20 + |body|);
    var ip := ReplyHeader(packet, source, destination, 20 + |body|);
    assert (ip + body)[4..6] == ip[4..6] && (ip + body)[6..9] == ip[6..9];
  }

  lemma PingBody(packet: Bytes)
    requires IsPing(packet)
    ensures |packet| >= 20 && Body(packet)[1] == 0
  {
  }

  lemma BodyChecks(body: Bytes)
    requires |body| >= 8
    ensures var icmp := ReplyBody(body);
      |icmp| == |body| && ChecksumOf(icmp) == 0 && icmp[0] == ECHO_REPLY && icmp[1] == body[1] && icmp[4..] == body[4..]
  {
    hide ChecksumOf;
    WrittenChecks(Splice(Splice(body, 0, [ECHO_REPLY]), 2, [0, 0]), 2);
  }

  lemma HeaderChecks(packet: Bytes, source: Address, destination: Address, length: nat)
    requires |packet| >= 20 && length < 0x1_0000
    ensures ChecksumOf(ReplyHeader(packet, source, destination, length)) == 0
  {
    hide ChecksumOf;
    WrittenChecks(BlankHeader(packet, source, destination, length), 10);
  }

  /** Every answer parses as IPv4 with the addresses swapped and its exact length, which
      fits the length field, and a TTL of 64; both checksums hold; and it carries the ping's identifier,
      number and data unchanged. */
  lemma ReplyIsValid(packet: Bytes)
    requires IsPing(packet)
    ensures var reply, header, body := EchoReplyOf(packet).value, ParseHeader(packet).value, Body(packet);
      && |reply| == 20 + |body| <= 0xFFFF
      && ParseHeader(reply) == Ok(Header(header.destination, header.source, ICMP, 20, |reply|))
      && ChecksumOf(reply[..20]) == 0
      && ChecksumOf(reply[20..]) == 0
      && reply[1] == packet[1] && reply[4..6] == packet[4..6] && reply[6..9] == [0, 0, 64]
      && reply[20] == ECHO_REPLY && reply[21] == 0 && reply[24..] == body[4..]
  {
    hide ParseHeader, ReplyHeader, ReplyBody, Body, ChecksumOf;
    var header, body := ParseHeader(packet).value, Body(packet);
    var icmp := ReplyBody(body);
    assert |packet| >= 20 && body[1] == 0 by { PingBody(packet); }
    BodyChecks(body);
    var ip := ReplyHeader(packet, header.source, header.destination, 20 + |icmp|);
    HeaderParses(packet, header.source, header.destination, icmp);
    HeaderCopies(packet, header.source, header.destination, icmp);
    HeaderChecks(packet, header.source, header.destination, 20 + |icmp|);
    assert (ip + icmp)[..20] == ip && (ip + icmp)[20..] == icmp && (ip + icmp)[24..] == icmp[4..];
  }

  /** The receiving side's rule would take the answer as coming from the pinged address. */
  lemma ReplyIsDeliverable(packet: Bytes)
    requires IsPing(packet) && IsMemberAddress(ParseHeader(packet).value.destination)
    ensures MayDeliver(EchoReplyOf(packet).value, Some(OWN_ADDRESS),
        Some(ParseHeader(packet).value.destination)) == Some(Unicast)
  {
    ReplyIsValid(packet);
  }
}
