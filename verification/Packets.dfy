/** Building and parsing IPv4 packets and UDP datagrams (packet_utils.js:43-119,
    relay.js:2262-2278). Addresses are their four bytes. */
module Packets {
  import opened Bytes
  import opened Checksum

  type Address = a: seq<byte> | |a| == 4 witness [0, 0, 0, 0]

  datatype Parsed = Parsed(packet: seq<byte>, headerLength: nat, totalLength: u16, protocol: byte,
                           srcIP: Address, dstIP: Address, moreFragments: bool, fragmentOffset: nat)

  datatype Datagram = Datagram(srcPort: u16, dstPort: u16, length: u16, payload: seq<byte>)

  // ----- parsing -----

  function ParseIPv4Packet(ipPacket: seq<byte>): (r: Option<Parsed>)
    ensures r.Some? ==> 20 <= r.value.headerLength <= r.value.totalLength == |r.value.packet| && r.value.packet <= ipPacket
  {
    if |ipPacket| < 20 then None
    else
      var version, headerLength := ipPacket[0] / 16, ipPacket[0] % 16 * 4;
      if version != 4 || headerLength < 20 || |ipPacket| < headerLength then None
      else
        var totalLength := ReadUInt16BE(ipPacket, 2);
        if totalLength < headerLength || totalLength > |ipPacket| then None
        else
          var fragmentField := ReadUInt16BE(ipPacket, 6);
          Some(Parsed(ipPacket[..totalLength], headerLength, totalLength, ipPacket[9], ipPacket[12..16], ipPacket[16..20],
                      fragmentField / 0x2000 % 2 != 0, fragmentField % 0x2000))
  }

  function ParseUDPDatagram(ipPacket: seq<byte>): (r: Option<Datagram>)
    ensures r.Some? ==> |r.value.payload| + 8 == r.value.length
  {
    var parsed := ParseIPv4Packet(ipPacket);
    if parsed.None? || parsed.value.protocol != 17 then None
    else
      var packet, udpOffset := parsed.value.packet, parsed.value.headerLength;
      if |packet| < udpOffset + 8 then None
      else
        var length := ReadUInt16BE(packet, udpOffset + 4);
        if length < 8 || udpOffset + length > |packet| then None
        else
          Some(Datagram(ReadUInt16BE(packet, udpOffset), ReadUInt16BE(packet, udpOffset + 2), length,
                        packet[udpOffset + 8..udpOffset + length]))
  }

  /** Link-layer padding after a packet changes nothing. */
  lemma PaddingIsIgnored(ipPacket: seq<byte>, padding: seq<byte>)
    requires ParseIPv4Packet(ipPacket).Some?
    ensures ParseIPv4Packet(ipPacket + padding) == ParseIPv4Packet(ipPacket)
    ensures ParseUDPDatagram(ipPacket + padding) == ParseUDPDatagram(ipPacket)
  {
    var p := ipPacket + padding;
    assert forall i :: 0 <= i < |ipPacket| ==> p[i] == ipPacket[i];
    var n := ReadUInt16BE(ipPacket, 2);
    assert p[..n] == ipPacket[..n] && p[12..16] == ipPacket[12..16] && p[16..20] == ipPacket[16..20];
  }

  // ----- building -----

  function Header(totalLength: u16, identification: u16, protocol: byte, checksum: u16, srcIP: Address, dstIP: Address): (r: seq<byte>)
    ensures |r| == 20
  {
    [0x45, 0, totalLength / 0x100, totalLength % 0x100, identification / 0x100, identification % 0x100, 0, 0, 64, protocol,
     checksum / 0x100, checksum % 0x100] + srcIP + dstIP
  }

  /** The packet that carries a payload. */
  function IPv4Packet(payload: seq<byte>, srcIP: Address, dstIP: Address, protocol: byte, identification: u16): (r: seq<byte>)
    requires 20 + |payload| <= 0xffff
    ensures |r| == 20 + |payload|
  {
    var blank := Header(20 + |payload|, identification, protocol, 0, srcIP, dstIP);
    Header(20 + |payload|, identification, protocol, Rfc1071(blank), srcIP, dstIP) + payload
  }

  method WriteUInt16BE(packet: array<byte>, value: u16, offset: nat)
    requires offset + 2 <= packet.Length
    modifies packet
    ensures packet[..] == Stored(old(packet[..]), offset, value)
  {
    packet[offset], packet[offset + 1] := value / 0x100, value % 0x100;
  }

  /** `payload.copy(packet, offset)`. */
  method CopyInto(packet: array<byte>, payload: seq<byte>, offset: nat)
    requires offset + |payload| <= packet.Length
    modifies packet
    ensures packet[..] == old(packet[..offset]) + payload + old(packet[offset + |payload|..])
  {
    forall i | 0 <= i < |payload| { packet[offset + i] := payload[i]; }
  }

  /** `buildIPv4Packet`: the buffer is filled field by field, the checksum last. */
  method BuildIPv4Packet(payload: seq<byte>, srcIP: Address, dstIP: Address, protocol: byte, identification: u16)
    returns (result: Result<array<byte>>)
    ensures result.Ok? <==> 20 + |payload| <= 0xffff
    ensures result.Ok? ==>
              && fresh(result.value)
              && result.value[..] == IPv4Packet(payload, srcIP, dstIP, protocol, identification)
  {
    var packetLength := 20 + |payload|;
    if packetLength > 0xffff { return RangeError; }
    var packet := new byte[packetLength](_ => 0);
    FillHeader(packet, srcIP, dstIP, protocol, identification);
    var checksum := InternetChecksum(packet[..20]);
    WriteUInt16BE(packet, checksum, 10);
    ChecksummedHeader(packetLength, identification, protocol, checksum, srcIP, dstIP);
    assert packet[..20] == Header(packetLength, identification, protocol, checksum, srcIP, dstIP);
    CopyInto(packet, payload, 20);
    assert packet[..] == packet[..20] + payload;
    result := Ok(packet);
  }

  /** The 20 header bytes, with a zero checksum. */
  method FillHeader(packet: array<byte>, srcIP: Address, dstIP: Address, protocol: byte, identification: u16)
    requires 20 <= packet.Length <= 0xffff
    modifies packet
    ensures packet[..20] == Header(packet.Length, identification, protocol, 0, srcIP, dstIP)
  {
    packet[0] := 0x45;
    packet[1] := 0;
    WriteUInt16BE(packet, packet.Length, 2);
    WriteUInt16BE(packet, identification, 4);
    WriteUInt16BE(packet, 0, 6);
    packet[8] := 64;
    packet[9] := protocol;
    WriteUInt16BE(packet, 0, 10);
    CopyInto(packet, srcIP, 12);
    CopyInto(packet, dstIP, 16);
  }

  lemma ChecksummedHeader(totalLength: u16, identification: u16, protocol: byte, checksum: u16, srcIP: Address, dstIP: Address)
    ensures Stored(Header(totalLength, identification, protocol, 0, srcIP, dstIP), 10, checksum)
         == Header(totalLength, identification, protocol, checksum, srcIP, dstIP)
  {
  }

  // ----- round trips -----

  /** The header checksum of a built packet verifies. */
  lemma BuiltHeaderVerifies(payload: seq<byte>, srcIP: Address, dstIP: Address, protocol: byte, identification: u16)
    requires 20 + |payload| <= 0xffff
    ensures Rfc1071(IPv4Packet(payload, srcIP, dstIP, protocol, identification)[..20]) == 0
  {
    var n := 20 + |payload|;
    var blank := Header(n, identification, protocol, 0, srcIP, dstIP);
    assert Zeroed(blank, 10) == blank;
    StoredChecksumVerifies(blank, 10);
    ChecksummedHeader(n, identification, protocol, Rfc1071(blank), srcIP, dstIP);
    var packet := IPv4Packet(payload, srcIP, dstIP, protocol, identification);
    assert packet[..20] == Header(n, identification, protocol, Rfc1071(blank), srcIP, dstIP);
    hide Rfc1071, Header;
  }

  /** Parsing a built packet gives back its addresses, protocol and payload,
      unfragmented, whatever padding follows. */
  lemma ParseBuilt(payload: seq<byte>, srcIP: Address, dstIP: Address, protocol: byte, identification: u16, padding: seq<byte>)
    requires 20 + |payload| <= 0xffff
    ensures var packet := IPv4Packet(payload, srcIP, dstIP, protocol, identification);
      && ParseIPv4Packet(packet + padding) == Some(Parsed(packet, 20, 20 + |payload|, protocol, srcIP, dstIP, false, 0))
      && packet[20..] == payload
  {
    hide Rfc1071;
    var packet := IPv4Packet(payload, srcIP, dstIP, protocol, identification);
    assert packet[..|packet|] == packet && packet[12..16] == srcIP && packet[16..20] == dstIP;
    assert ParseIPv4Packet(packet) == Some(Parsed(packet, 20, 20 + |payload|, protocol, srcIP, dstIP, false, 0));
    PaddingIsIgnored(packet, padding);
  }

  /** The UDP datagram `sendUDPToVM` starts from, its checksum still zero. */
  function UDPDatagram(payload: seq<byte>, srcPort: u16, dstPort: u16): (r: seq<byte>)
    requires 8 + |payload| <= 0xffff
    ensures |r| == 8 + |payload|
  {
    BigEndian(srcPort) + BigEndian(dstPort) + BigEndian(8 + |payload|) + [0, 0] + payload
  }

  /** `sendUDPToVM`, up to the frame it hands over. */
  method SendUDPToVM(payload: seq<byte>, srcPort: u16, dstPort: u16, srcIP: Address, dstIP: Address, identification: u16)
    returns (result: Result<array<byte>>)
    ensures result.Ok? <==> 28 + |payload| <= 0xffff
    ensures result.Ok? ==>
              && ParseUDPDatagram(result.value[..]) == Some(Datagram(srcPort, dstPort, 8 + |payload|, payload))
              && Rfc1071(PseudoHeader(result.value[..], 17, 8 + |payload|) + result.value[20..]) == 0
  {
    hide IPv4Packet, ParseUDPDatagram, PseudoHeader, TransportSum, Rfc1071, Stored, UDPDatagram, Summable;
    var udpLen := 8 + |payload|;
    if udpLen > 0xffff { return RangeError; }
    var udp := new byte[udpLen](_ => 0);
    FillDatagram(udp, payload, srcPort, dstPort);
    var ip := BuildIPv4Packet(udp[..], srcIP, dstIP, 17, identification);
    if ip.RangeError? { return RangeError; }
    var packet := ip.value;
    ghost var built := packet[..];
    BuiltIsSummable(udp[..], srcIP, dstIP, identification);
    var checksum := TransportChecksum(packet[..], 17, 6);
    WrittenChecksumVerifies(built, 17, 6);
    WriteUInt16BE(packet, checksum.value, 26);
    ParseSent(payload, srcPort, dstPort, srcIP, dstIP, identification, checksum.value);
    assert packet[20..] == packet[..][20..];
    result := Ok(packet);
  }

  method FillDatagram(udp: array<byte>, payload: seq<byte>, srcPort: u16, dstPort: u16)
    requires udp.Length == 8 + |payload| <= 0xffff
    modifies udp
    ensures udp[..] == UDPDatagram(payload, srcPort, dstPort)
  {
    WriteUInt16BE(udp, srcPort, 0);
    WriteUInt16BE(udp, dstPort, 2);
    WriteUInt16BE(udp, udp.Length, 4);
    WriteUInt16BE(udp, 0, 6);
    CopyInto(udp, payload, 8);
  }

  lemma BuiltIsSummable(udp: seq<byte>, srcIP: Address, dstIP: Address, identification: u16)
    requires 8 <= |udp| && 20 + |udp| <= 0xffff
    ensures Summable(IPv4Packet(udp, srcIP, dstIP, 17, identification), 6)
    ensures HeaderLength(IPv4Packet(udp, srcIP, dstIP, 17, identification)) == 20
  {
    hide Rfc1071;
  }

  /** Whatever checksum is stored, the datagram parses to what was sent. */
  lemma ParseSent(payload: seq<byte>, srcPort: u16, dstPort: u16, srcIP: Address, dstIP: Address, identification: u16, checksum: u16)
    requires 28 + |payload| <= 0xffff
    ensures ParseUDPDatagram(Stored(IPv4Packet(UDPDatagram(payload, srcPort, dstPort), srcIP, dstIP, 17, identification), 26, checksum))
         == Some(Datagram(srcPort, dstPort, 8 + |payload|, payload))
  {
    var udp := UDPDatagram(payload, srcPort, dstPort);
    var stored := Stored(udp, 6, checksum);
    StoredInPayload(udp, srcIP, dstIP, identification, checksum);
    ParseBuilt(stored, srcIP, dstIP, 17, identification, []);
    hide IPv4Packet, ParseIPv4Packet, Stored;
    var packet := IPv4Packet(stored, srcIP, dstIP, 17, identification);
    assert packet + [] == packet;
    StoredFields(payload, srcPort, dstPort, checksum);
    assert forall i :: 20 <= i < |packet| ==> packet[i] == packet[20..][i - 20];
    assert packet[28..28 + |payload|] == packet[20..][8..];
  }

  /** The transport checksum lies outside what the header checksum covers. */
  lemma StoredInPayload(udp: seq<byte>, srcIP: Address, dstIP: Address, identification: u16, checksum: u16)
    requires 8 <= |udp| && 20 + |udp| <= 0xffff
    ensures Stored(IPv4Packet(udp, srcIP, dstIP, 17, identification), 26, checksum)
         == IPv4Packet(Stored(udp, 6, checksum), srcIP, dstIP, 17, identification)
  {
    hide Rfc1071, Header;
  }

  lemma StoredFields(payload: seq<byte>, srcPort: u16, dstPort: u16, checksum: u16)
    requires 8 + |payload| <= 0xffff
    ensures var s := Stored(UDPDatagram(payload, srcPort, dstPort), 6, checksum);
      && ReadUInt16BE(s, 0) == srcPort && ReadUInt16BE(s, 2) == dstPort && ReadUInt16BE(s, 4) == 8 + |payload|
      && s[8..] == payload
  {
  }
}
