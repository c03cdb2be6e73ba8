/** TCP option parsing (tcp_utils.js:102-136): what a list of options says is
    what the parser reads from its encoding, whatever padding ends the list. */
module TCPOptions {
  import opened Bytes
  import opened Checksum

  /** What the parser reports; a zero MSS counts as none. */
  datatype Options = Options(mss: Option<u16>, windowScale: Option<byte>)

  /** The parser's loop from `offset` on, with what it has found so far. */
  function Walk(packet: seq<byte>, offset: nat, end: nat, found: Options): Options
    requires end <= |packet|
    decreases end - offset
  {
    if offset >= end || packet[offset] == 0 then found
    else if packet[offset] == 1 then Walk(packet, offset + 1, end, found)
    else if offset + 1 >= end then found
    else
      var length := packet[offset + 1];
      if length < 2 || offset + length > end then found
      else Walk(packet, offset + length, end, Note(packet, offset, length, found))
  }

  function Note(packet: seq<byte>, offset: nat, length: nat, found: Options): Options
    requires 2 <= length && offset + length <= |packet|
  {
    if packet[offset] == 2 && length == 4 then
      var mss := ReadUInt16BE(packet, offset + 2);
      if mss > 0 then found.(mss := Some(mss)) else found
    else if packet[offset] == 3 && length == 3 then found.(windowScale := Some(packet[offset + 2]))
    else found
  }

  /** `parseTCPOptions`; bounds outside the packet are a RangeError. */
  method ParseTCPOptions(packet: seq<byte>, start: int, end: int) returns (result: Result<Options>)
    ensures result.Ok? <==> 0 <= start <= end <= |packet|
    ensures result.Ok? ==> result.value == Walk(packet, start, end, Options(None, None))
  {
    if start < 0 || end < start || end > |packet| { return RangeError; }
    var options := Options(None, None);
    var offset: nat := start;
    while offset < end
      invariant offset <= end
      invariant Walk(packet, offset, end, options) == Walk(packet, start, end, Options(None, None))
      decreases end - offset
    {
      var kind := packet[offset];
      if kind == 0 { break; }
      if kind == 1 {
        offset := offset + 1;
        continue;
      }
      if offset + 1 >= end { break; }
      var length := packet[offset + 1];
      if length < 2 || offset + length > end { break; }
      if kind == 2 && length == 4 {
        var mss := ReadUInt16BE(packet, offset + 2);
        if mss > 0 { options := options.(mss := Some(mss)); }
      } else if kind == 3 && length == 3 {
        options := options.(windowScale := Some(packet[offset + 2]));
      }
      offset := offset + length;
    }
    result := Ok(options);
  }

  // ----- the structure of an option list -----

  datatype TCPOption = NoOperation | MaximumSegmentSize(size: u16) | WindowScale(shift: byte) | Other(kind: byte, data: seq<byte>)
  {
    predicate Valid() {
      Other? ==> kind > 3 && |data| <= 253
    }
  }

  function Encode(o: TCPOption): seq<byte> {
    match o
    case NoOperation => [1]
    case MaximumSegmentSize(size) => [2, 4] + BigEndian(size)
    case WindowScale(shift) => [3, 3, shift]
    case Other(kind, data) => [kind, if |data| <= 253 then |data| + 2 else 0] + data
  }

  function EncodeAll(options: seq<TCPOption>): seq<byte> {
    if options == [] then [] else Encode(options[0]) + EncodeAll(options[1..])
  }

  /** What a list says: the last MSS that is not zero, and the last scale. */
  function Meaning(options: seq<TCPOption>, before: Options): Options {
    if options == [] then before
    else Meaning(options[1..], Says(options[0], before))
  }

  function Says(o: TCPOption, before: Options): Options {
    match o
    case MaximumSegmentSize(size) => if size > 0 then before.(mss := Some(size)) else before
    case WindowScale(shift) => before.(windowScale := Some(shift))
    case _ => before
  }

  /** The list ends where the header does, or with an end-of-list octet. */
  predicate Ends(packet: seq<byte>, offset: nat, end: nat) { offset == end || (offset < end <= |packet| && packet[offset] == 0) }

  /** One valid option is read for what it says. */
  lemma OptionIsRead(packet: seq<byte>, offset: nat, end: nat, o: TCPOption, before: Options)
    requires o.Valid() && end <= |packet| && offset + |Encode(o)| <= end
    requires forall i :: 0 <= i < |Encode(o)| ==> packet[offset + i] == Encode(o)[i]
    ensures Walk(packet, offset, end, before) == Walk(packet, offset + |Encode(o)|, end, Says(o, before))
  {
    assert packet[offset + 0] == Encode(o)[0];
    if !o.NoOperation? {
      assert packet[offset + 1] == Encode(o)[1] == |Encode(o)|;
      if o.MaximumSegmentSize? {
        assert packet[offset + 2] == Encode(o)[2] == o.size / 0x100 && packet[offset + 3] == Encode(o)[3] == o.size % 0x100;
      } else if o.WindowScale? {
        assert packet[offset + 2] == Encode(o)[2];
      }
    }
  }

  /** The parser reads back every valid list, and nothing of what follows it. */
  lemma {:induction false} WalkReadsOptions(packet: seq<byte>, offset: nat, end: nat, options: seq<TCPOption>, before: Options)
    requires end <= |packet| && offset + |EncodeAll(options)| <= end && forall o <- options :: o.Valid()
    requires packet[offset..offset + |EncodeAll(options)|] == EncodeAll(options)
    requires Ends(packet, offset + |EncodeAll(options)|, end)
    ensures Walk(packet, offset, end, before) == Meaning(options, before)
    decreases |options|
  {
    hide Encode, Says, Walk;
    if options != [] {
      var first, rest := Encode(options[0]), EncodeAll(options[1..]);
      SliceOfTwo(packet, offset, first, rest);
      OptionIsRead(packet, offset, end, options[0], before);
      WalkReadsOptions(packet, offset + |first|, end, options[1..], Says(options[0], before));
    } else {
      WalkEnds(packet, offset, end, before);
    }
  }

  lemma WalkEnds(packet: seq<byte>, offset: nat, end: nat, before: Options)
    requires end <= |packet| && Ends(packet, offset, end)
    ensures Walk(packet, offset, end, before) == before
  {
  }

  lemma SliceOfTwo(packet: seq<byte>, offset: nat, a: seq<byte>, b: seq<byte>)
    requires offset + |a| + |b| <= |packet| && packet[offset..offset + |a + b|] == a + b
    ensures forall i :: 0 <= i < |a| ==> packet[offset + i] == a[i]
    ensures packet[offset + |a|..offset + |a| + |b|] == b
  {
    var whole := packet[offset..offset + |a + b|];
    assert forall i :: 0 <= i < |a| ==> packet[offset + i] == whole[i];
    assert packet[offset + |a|..offset + |a| + |b|] == whole[|a|..];
  }

  lemma ParserReadsOptions(before: seq<byte>, options: seq<TCPOption>, after: seq<byte>, end: nat)
    requires forall o <- options :: o.Valid()
    requires var packet := before + EncodeAll(options) + after;
      |before| + |EncodeAll(options)| <= end <= |packet| && Ends(packet, |before| + |EncodeAll(options)|, end)
    ensures Walk(before + EncodeAll(options) + after, |before|, end, Options(None, None)) == Meaning(options, Options(None, None))
  {
    var packet := before + EncodeAll(options) + after;
    assert packet[|before|..|before| + |EncodeAll(options)|] == EncodeAll(options);
    WalkReadsOptions(packet, |before|, end, options, Options(None, None));
  }
}
