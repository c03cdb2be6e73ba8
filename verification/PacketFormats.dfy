/** Exactly which byte strings the two parsers accept, and what they read from
    them: IPv4 packets with any options and fragment fields, followed by any
    padding (section 3.1 of RFC 791), and UDP datagrams in them (RFC 768). */
module PacketFormats {
  import opened Bytes
  import opened Checksum
  import opened Packets

  /** The fields of an IPv4 header that may be chosen freely; `flags` are the
      three bits before the fragment offset. */
  datatype IPHeader = IPHeader(tos: byte, identification: u16, flags: nat, fragmentOffset: nat, ttl: byte, protocol: byte,
                               checksum: u16, srcIP: Address, dstIP: Address, options: seq<byte>)
  {
    predicate Valid() { flags < 8 && fragmentOffset < 0x2000 && |options| % 4 == 0 && |options| <= 40 }

    function Length(): nat { 20 + |options| }
  }

  /** The twelve bytes before the addresses. */
  function FixedPart(h: IPHeader, totalLength: u16): (r: seq<byte>)
    requires h.Valid()
    ensures |r| == 12
  {
    [0x45 + |h.options| / 4, h.tos] + BigEndian(totalLength) + BigEndian(h.identification)
    + BigEndian(h.flags * 0x2000 + h.fragmentOffset) + [h.ttl, h.protocol] + BigEndian(h.checksum)
  }

  function EncodeHeader(h: IPHeader, totalLength: u16): (r: seq<byte>)
    requires h.Valid()
    ensures |r| == h.Length()
  {
    FixedPart(h, totalLength) + h.srcIP + h.dstIP + h.options
  }

  predicate Fits(h: IPHeader, body: seq<byte>) { h.Valid() && h.Length() + |body| <= 0xffff }

  function EncodePacket(h: IPHeader, body: seq<byte>): (r: seq<byte>)
    requires Fits(h, body)
    ensures |r| == h.Length() + |body|
  {
    EncodeHeader(h, h.Length() + |body|) + body
  }

  /** What the parser is to say about such a packet. */
  function Described(h: IPHeader, body: seq<byte>): Parsed
    requires Fits(h, body)
  {
    Parsed(EncodePacket(h, body), h.Length(), h.Length() + |body|, h.protocol, h.srcIP, h.dstIP,
           h.flags % 2 != 0, h.fragmentOffset)
  }

  lemma HeaderFields(h: IPHeader, totalLength: u16)
    requires h.Valid()
    ensures var r := EncodeHeader(h, totalLength);
      && r[0] / 16 == 4 && r[0] % 16 * 4 == h.Length() && ReadUInt16BE(r, 2) == totalLength
      && ReadUInt16BE(r, 6) == h.flags * 0x2000 + h.fragmentOffset
      && r[9] == h.protocol && r[12..16] == h.srcIP && r[16..20] == h.dstIP
  {
    FixedFields(h, totalLength);
    hide FixedPart;
  }

  lemma FixedFields(h: IPHeader, totalLength: u16)
    requires h.Valid()
    ensures var r := FixedPart(h, totalLength);
      && r[0] / 16 == 4 && r[0] % 16 * 4 == h.Length() && ReadUInt16BE(r, 2) == totalLength
      && ReadUInt16BE(r, 6) == h.flags * 0x2000 + h.fragmentOffset && r[9] == h.protocol
  {
  }

  lemma ParseFromFields(p: seq<byte>, headerLength: nat, fragmentField: u16)
    requires 20 <= headerLength <= |p| && p[0] / 16 == 4 && p[0] % 16 * 4 == headerLength
    requires ReadUInt16BE(p, 2) == |p| && ReadUInt16BE(p, 6) == fragmentField
    ensures ParseIPv4Packet(p) ==
      Some(Parsed(p, headerLength, |p|, p[9], p[12..16], p[16..20], fragmentField / 0x2000 % 2 != 0, fragmentField % 0x2000))
  {
    assert p[..|p|] == p;
    hide ReadUInt16BE;
  }

  lemma PacketFields(h: IPHeader, body: seq<byte>)
    requires Fits(h, body)
    ensures var p := EncodePacket(h, body);
      && p[0] / 16 == 4 && p[0] % 16 * 4 == h.Length() && ReadUInt16BE(p, 2) == |p|
      && ReadUInt16BE(p, 6) == h.flags * 0x2000 + h.fragmentOffset
      && p[9] == h.protocol && p[12..16] == h.srcIP && p[16..20] == h.dstIP
  {
    var n := h.Length() + |body|;
    var p, r := EncodePacket(h, body), EncodeHeader(h, n);
    HeaderFields(h, n);
    hide EncodeHeader;
    assert p[12..16] == r[12..16] && p[16..20] == r[16..20];
  }

  /** Every such packet is read as it was written, whatever follows it. */
  lemma ParseReads(h: IPHeader, body: seq<byte>, padding: seq<byte>)
    requires Fits(h, body)
    ensures ParseIPv4Packet(EncodePacket(h, body) + padding) == Some(Described(h, body))
  {
    hide ParseIPv4Packet, ReadUInt16BE, EncodePacket;
    var p := EncodePacket(h, body);
    PacketFields(h, body);
    var fragmentField := h.flags * 0x2000 + h.fragmentOffset;
    ParseFromFields(p, h.Length(), fragmentField);
    FragmentBits(h.flags, h.fragmentOffset);
    PaddingIsIgnored(p, padding);
  }

  lemma FragmentBits(flags: nat, offset: nat)
    requires offset < 0x2000
    ensures (flags * 0x2000 + offset) / 0x2000 == flags && (flags * 0x2000 + offset) % 0x2000 == offset
  {
  }

  /** The header fields of a packet that was accepted. */
  function FieldsOf(p: seq<byte>, headerLength: nat): (h: IPHeader)
    requires 20 <= headerLength <= |p|
  {
    var fragmentField := ReadUInt16BE(p, 6);
    IPHeader(p[1], ReadUInt16BE(p, 4), fragmentField / 0x2000, fragmentField % 0x2000, p[8], p[9], ReadUInt16BE(p, 10),
             p[12..16], p[16..20], p[20..headerLength])
  }

  lemma TwoBytes(p: seq<byte>, o: nat)
    requires o + 2 <= |p|
    ensures BigEndian(ReadUInt16BE(p, o)) == p[o..o + 2]
  {
  }

  lemma AcceptedParts(p: seq<byte>)
    requires ParseIPv4Packet(p).Some?
    ensures var r := ParseIPv4Packet(p).value;
      && p[0] == 0x40 + r.headerLength / 4 && r.headerLength % 4 == 0 && 20 <= r.headerLength <= 60
      && r.headerLength <= r.totalLength <= |p| && ReadUInt16BE(p, 2) == r.totalLength
  {
  }

  lemma HeaderIsEncoded(p: seq<byte>)
    requires ParseIPv4Packet(p).Some?
    ensures var r := ParseIPv4Packet(p).value;
      var h := FieldsOf(p, r.headerLength);
      h.Valid() && h.Length() == r.headerLength && EncodeHeader(h, r.totalLength) == p[..r.headerLength]
  {
    hide ParseIPv4Packet, FixedPart;
    AcceptedParts(p);
    var r := ParseIPv4Packet(p).value;
    FixedIsEncoded(p, r.headerLength, r.totalLength);
    hide ReadUInt16BE;
    assert p[..r.headerLength] == p[..12] + p[12..16] + p[16..20] + p[20..r.headerLength];
  }

  lemma FixedIsEncoded(p: seq<byte>, headerLength: nat, totalLength: u16)
    requires 20 <= headerLength <= 60 && headerLength % 4 == 0 && headerLength <= |p|
    requires p[0] == 0x40 + headerLength / 4 && ReadUInt16BE(p, 2) == totalLength
    ensures var h := FieldsOf(p, headerLength); h.Valid() && FixedPart(h, totalLength) == p[..12]
  {
    TwoBytes(p, 2);
    TwoBytes(p, 4);
    TwoBytes(p, 6);
    TwoBytes(p, 10);
    hide ReadUInt16BE, BigEndian;
    assert [p[0], p[1]] == p[..2] && [p[8], p[9]] == p[8..10];
    assert p[..12] == p[..2] + p[2..4] + p[4..6] + p[6..8] + p[8..10] + p[10..12];
  }

  predicate IsPacket(p: seq<byte>, h: IPHeader, body: seq<byte>, padding: seq<byte>) {
    Fits(h, body) && p == EncodePacket(h, body) + padding
  }

  /** An accepted packet is a header, a body and padding. */
  lemma AcceptedIsPacket(p: seq<byte>) returns (h: IPHeader, body: seq<byte>, padding: seq<byte>)
    requires ParseIPv4Packet(p).Some?
    ensures IsPacket(p, h, body, padding)
  {
    hide ParseIPv4Packet, EncodeHeader, FieldsOf, ReadUInt16BE;
    var r := ParseIPv4Packet(p).value;
    AcceptedParts(p);
    HeaderIsEncoded(p);
    h := FieldsOf(p, r.headerLength);
    body, padding := p[r.headerLength..r.totalLength], p[r.totalLength..];
    assert EncodePacket(h, body) == p[..r.headerLength] + body;
    assert p[..r.headerLength] + body + padding == p;
  }

  /** The parser's answer, exactly: it is `r` if and only if the bytes are a
      well-formed header, a body of the announced length and padding, and `r`
      says what they hold. All other byte strings are rejected. */
  lemma ParsesExactlyPackets(p: seq<byte>, r: Parsed)
    ensures ParseIPv4Packet(p) == Some(r) <==>
            exists h, body, padding :: IsPacket(p, h, body, padding) && r == Described(h, body)
  {
    if ParseIPv4Packet(p) == Some(r) {
      var h, body, padding := AcceptedIsPacket(p);
      ParseReads(h, body, padding);
      assert IsPacket(p, h, body, padding) && r == Described(h, body);
    }
    if h, body, padding :| IsPacket(p, h, body, padding) && r == Described(h, body) { ParseReads(h, body, padding); }
  }

  // ----- UDP -----

  function EncodeDatagram(d: Datagram, checksum: u16): (r: seq<byte>)
    requires |d.payload| + 8 == d.length
    ensures |r| == d.length
  {
    BigEndian(d.srcPort) + BigEndian(d.dstPort) + BigEndian(d.length) + BigEndian(checksum) + d.payload
  }

  /** The datagram is the start of the body of an IPv4 packet of protocol 17. */
  predicate Carries(p: seq<byte>, h: IPHeader, d: Datagram, checksum: u16, rest: seq<byte>, padding: seq<byte>) {
    && h.protocol == 17 && |d.payload| + 8 == d.length
    && IsPacket(p, h, EncodeDatagram(d, checksum) + rest, padding)
  }

  lemma DatagramFields(d: Datagram, checksum: u16)
    requires |d.payload| + 8 == d.length
    ensures var r := EncodeDatagram(d, checksum);
      && ReadUInt16BE(r, 0) == d.srcPort && ReadUInt16BE(r, 2) == d.dstPort && ReadUInt16BE(r, 4) == d.length && r[8..] == d.payload
  {
  }

  /** What `parseUDPDatagram` does once the packet around it is parsed. */
  lemma DatagramOf(p: seq<byte>, r: Parsed)
    requires ParseIPv4Packet(p) == Some(r)
    ensures var body := r.packet[r.headerLength..];
      ParseUDPDatagram(p) ==
        if r.protocol != 17 || |body| < 8 || ReadUInt16BE(body, 4) < 8 || ReadUInt16BE(body, 4) > |body| then None
        else Some(Datagram(ReadUInt16BE(body, 0), ReadUInt16BE(body, 2), ReadUInt16BE(body, 4), body[8..ReadUInt16BE(body, 4)]))
  {
    hide ParseIPv4Packet;
    var body := r.packet[r.headerLength..];
    assert forall i :: 0 <= i < |body| ==> body[i] == r.packet[r.headerLength + i];
    if |body| >= 8 && 8 <= ReadUInt16BE(body, 4) <= |body| {
      assert body[8..ReadUInt16BE(body, 4)] == r.packet[r.headerLength + 8..r.headerLength + ReadUInt16BE(body, 4)];
    }
  }

  lemma DatagramIsEncoded(body: seq<byte>)
    requires |body| >= 8 && 8 <= ReadUInt16BE(body, 4) <= |body|
    ensures var n := ReadUInt16BE(body, 4);
      EncodeDatagram(Datagram(ReadUInt16BE(body, 0), ReadUInt16BE(body, 2), n, body[8..n]), ReadUInt16BE(body, 6)) == body[..n]
  {
    TwoBytes(body, 0);
    TwoBytes(body, 2);
    TwoBytes(body, 4);
    TwoBytes(body, 6);
    var n := ReadUInt16BE(body, 4);
    hide ReadUInt16BE, BigEndian;
    assert body[..n] == body[0..2] + body[2..4] + body[4..6] + body[6..8] + body[8..n];
  }

  lemma CarriedIsRead(p: seq<byte>, h: IPHeader, d: Datagram, checksum: u16, rest: seq<byte>, padding: seq<byte>)
    requires Carries(p, h, d, checksum, rest, padding)
    ensures ParseUDPDatagram(p) == Some(d)
  {
    hide ParseIPv4Packet, ParseUDPDatagram, EncodeHeader, EncodeDatagram;
    var e := EncodeDatagram(d, checksum);
    var body := e + rest;
    ParseReads(h, body, padding);
    DatagramOf(p, Described(h, body));
    assert EncodePacket(h, body)[h.Length()..] == body;
    DatagramFields(d, checksum);
    assert body[8..d.length] == e[8..];
  }

  /** A datagram is read from exactly the packets that carry it. */
  lemma ParsesExactlyDatagrams(p: seq<byte>, d: Datagram)
    ensures ParseUDPDatagram(p) == Some(d) <==>
            exists h, checksum, rest, padding :: Carries(p, h, d, checksum, rest, padding)
  {
    if ParseUDPDatagram(p) == Some(d) {
      var h, body, padding := AcceptedIsPacket(p);
      ParseReads(h, body, padding);
      DatagramOf(p, Described(h, body));
      hide ParseIPv4Packet, ParseUDPDatagram, EncodeHeader, EncodeDatagram;
      assert EncodePacket(h, body)[h.Length()..] == body;
      DatagramIsEncoded(body);
      assert body == body[..d.length] + body[d.length..];
      assert Carries(p, h, d, ReadUInt16BE(body, 6), body[d.length..], padding);
    }
    if h, checksum, rest, padding :| Carries(p, h, d, checksum, rest, padding) {
      CarriedIsRead(p, h, d, checksum, rest, padding);
    }
  }
}
