/** The Internet checksum (packet_utils.js:3-19, 121-154) against the definition
    in section 1 of RFC 1071: the complement of the ones' complement sum, with
    end-around carry, of the 16-bit words, the last one padded with zero. */
module Checksum {
  import opened Bytes

  type u16 = x: int | 0 <= x < 0x1_0000

  function Word(hi: byte, lo: byte): u16 { hi * 0x100 + lo }

  function ReadUInt16BE(data: seq<byte>, offset: nat): u16
    requires offset + 2 <= |data|
  {
    Word(data[offset], data[offset + 1])
  }

  function BigEndian(x: u16): (r: seq<byte>)
    ensures |r| == 2
  {
    [x / 0x100, x % 0x100]
  }

  /** The 16-bit words of a byte string, an odd last byte padded. */
  function Words(data: seq<byte>): seq<u16> {
    if data == [] then []
    else if |data| == 1 then [Word(data[0], 0)]
    else [Word(data[0], data[1])] + Words(data[2..])
  }

  // ----- the definition -----

  /** Ones' complement addition: a carry out of the top comes back in below. */
  function OnesAdd(a: u16, b: u16): u16 { if a + b > 0xffff then a + b - 0xffff else a + b }

  function OnesSum(words: seq<u16>): u16 {
    if words == [] then 0 else OnesAdd(words[0], OnesSum(words[1..]))
  }

  function Rfc1071(data: seq<byte>): u16 { 0xffff - OnesSum(Words(data)) }

  // ----- the code's way: one wide sum, folded at the end -----

  function PlainSum(words: seq<u16>): nat {
    if words == [] then 0 else words[0] + PlainSum(words[1..])
  }

  /** `while (sum > 0xffff) sum = (sum & 0xffff) + floor(sum / 0x10000)`. */
  function Fold(sum: nat): u16 {
    if sum <= 0xffff then sum else Fold(sum % 0x1_0000 + sum / 0x1_0000)
  }

  /** The value modulo 65535, written 1 to 65535 unless it is zero itself. */
  function Canonical(sum: nat): u16 { if sum == 0 then 0 else 1 + (sum - 1) % 0xffff }

  lemma CanonicalSteps(n: nat)
    ensures Canonical(n + 0xffff) == if n == 0 then 0xffff else Canonical(n)
    ensures n <= 0xffff ==> Canonical(n) == n
  {
  }

  lemma {:induction false} CanonicalMultiple(n: nat, k: nat)
    requires n > 0
    ensures Canonical(n + k * 0xffff) == Canonical(n)
  {
    if k > 0 {
      CanonicalMultiple(n, k - 1);
      CanonicalSteps(n + (k - 1) * 0xffff);
      assert n + k * 0xffff == (n + (k - 1) * 0xffff) + 0xffff;
    }
  }

  /** Folding terminates, keeps the value modulo 65535 and is zero only for zero. */
  lemma {:induction false} FoldIsCanonical(sum: nat)
    ensures Fold(sum) == Canonical(sum)
    decreases sum
  {
    if sum <= 0xffff {
      CanonicalSteps(sum);
    } else {
      var next := sum % 0x1_0000 + sum / 0x1_0000;
      FoldIsCanonical(next);
      CanonicalMultiple(next, sum / 0x1_0000);
    }
  }

  lemma OnesAddIsCanonical(a: u16, n: nat)
    ensures OnesAdd(a, Canonical(n)) == Canonical(a + n)
  {
  }

  /** The sum with a carry after every addition equals the wide sum folded once. */
  lemma {:induction false} OnesSumFolds(words: seq<u16>)
    ensures OnesSum(words) == Fold(PlainSum(words))
  {
    FoldIsCanonical(PlainSum(words));
    if words != [] {
      OnesSumFolds(words[1..]);
      FoldIsCanonical(PlainSum(words[1..]));
      OnesAddIsCanonical(words[0], PlainSum(words[1..]));
      hide Fold, Canonical, OnesAdd;
    }
  }

  lemma {:induction false} PlainSumAppend(a: seq<u16>, b: seq<u16>)
    ensures PlainSum(a + b) == PlainSum(a) + PlainSum(b)
  {
    if a == [] {
      assert a + b == b;
    } else {
      PlainSumAppend(a[1..], b);
      assert (a + b)[1..] == a[1..] + b;
    }
  }

  /** Cutting at an even offset cuts between words. */
  lemma {:induction false} WordsAppend(a: seq<byte>, b: seq<byte>)
    requires |a| % 2 == 0
    ensures Words(a + b) == Words(a) + Words(b)
  {
    if a == [] {
      assert a + b == b;
    } else {
      WordsAppend(a[2..], b);
      assert (a + b)[2..] == a[2..] + b;
      ConcatAssociative([Word(a[0], a[1])], Words(a[2..]), Words(b));
    }
  }

  // ----- internetChecksum -----

  method InternetChecksum(data: seq<byte>) returns (checksum: u16)
    ensures checksum == Rfc1071(data)
  {
    hide Words, PlainSum, Fold, OnesSum;
    var sum, i := 0, 0;
    assert data[0..] == data;
    while i + 1 < |data|
      invariant 0 <= i <= |data| && i % 2 == 0 && sum >= 0
      invariant sum + PlainSum(Words(data[i..])) == PlainSum(Words(data))
    {
      assert data[i..][2..] == data[i + 2..];
      SumStep(data[i..]);
      sum := sum + Word(data[i], data[i + 1]);
      i := i + 2;
    }
    LastByte(data, i);
    if |data| % 2 != 0 { sum := sum + Word(data[|data| - 1], 0); }
    OnesSumFolds(Words(data));
    checksum := FoldAndComplement(sum);
  }

  lemma SumStep(data: seq<byte>)
    requires |data| >= 2
    ensures PlainSum(Words(data)) == Word(data[0], data[1]) + PlainSum(Words(data[2..]))
  {
    PlainSumFirst(Word(data[0], data[1]), Words(data[2..]));
  }

  lemma PlainSumFirst(w: u16, rest: seq<u16>)
    ensures PlainSum([w] + rest) == w + PlainSum(rest)
  {
    assert ([w] + rest)[1..] == rest;
  }

  lemma LastByte(data: seq<byte>, i: nat)
    requires i <= |data| && i % 2 == 0 && i + 1 >= |data|
    ensures PlainSum(Words(data[i..])) == if |data| % 2 != 0 then Word(data[|data| - 1], 0) else 0
  {
    if |data| % 2 != 0 {
      assert data[i..] == [data[|data| - 1]];
      PlainSumFirst(Word(data[i], 0), []);
      assert [Word(data[i], 0)] + [] == [Word(data[i], 0)];
    } else {
      assert data[i..] == [];
    }
  }

  method FoldAndComplement(total: nat) returns (checksum: u16)
    ensures checksum == 0xffff - Fold(total)
  {
    var sum := total;
    while sum > 0xffff
      invariant sum >= 0 && Fold(sum) == Fold(total)
    {
      sum := sum % 0x1_0000 + sum / 0x1_0000;
    }
    checksum := 0xffff - sum;
  }

  // ----- transportChecksum -----

  datatype Result<T> = Ok(value: T) | RangeError

  /** The IPv4 pseudo-header: both addresses, the protocol, the length. */
  function PseudoHeader(packet: seq<byte>, protocol: byte, length: u16): seq<byte>
    requires |packet| >= 20
  {
    packet[12..20] + [0, protocol, length / 0x100, length % 0x100]
  }

  function Zeroed(data: seq<byte>, offset: nat): seq<byte>
    requires offset + 2 <= |data|
  {
    data[offset := 0][offset + 1 := 0]
  }

  function HeaderLength(packet: seq<byte>): nat { if packet == [] then 0 else packet[0] % 16 * 4 }

  /** What the packet's checksum field must hold. */
  function TransportSum(packet: seq<byte>, protocol: byte, checksumOffset: nat): u16
    requires 20 <= HeaderLength(packet) <= |packet| <= HeaderLength(packet) + 0xffff
    requires HeaderLength(packet) + checksumOffset + 2 <= |packet|
  {
    var transport := packet[HeaderLength(packet)..];
    Rfc1071(PseudoHeader(packet, protocol, |transport|) + Zeroed(transport, checksumOffset))
  }

  predicate Summable(packet: seq<byte>, checksumOffset: nat) {
    && 20 <= HeaderLength(packet) <= |packet| <= HeaderLength(packet) + 0xffff
    && HeaderLength(packet) + checksumOffset + 2 <= |packet|
  }

  /** `transportChecksum`: the pseudo-header and the transport are summed in
      place, the old field taken out; the checks fail exactly when the header
      or the lengths are out of range. */
  method TransportChecksum(packet: seq<byte>, protocol: byte, checksumOffset: nat) returns (result: Result<u16>)
    requires checksumOffset % 2 == 0
    ensures result.Ok? <==> Summable(packet, checksumOffset)
    ensures result.Ok? ==> result.value == TransportSum(packet, protocol, checksumOffset)
  {
    hide Words, PlainSum, Fold, OnesSum, PseudoHeader, Zeroed;
    var headerLength := HeaderLength(packet);
    if headerLength < 20 || |packet| < headerLength { return RangeError; }
    var transportLength := |packet| - headerLength;
    if transportLength > 0xffff { return RangeError; }
    if transportLength < checksumOffset + 2 { return RangeError; }
    var sum := protocol + transportLength;
    var addresses := SumWords(packet, 12, 20);
    sum := sum + addresses;
    sum := sum - Word(packet[headerLength + checksumOffset], packet[headerLength + checksumOffset + 1]);
    var words := SumWords(packet, headerLength, |packet|);
    sum := sum + words;
    if transportLength % 2 != 0 { sum := sum + Word(packet[|packet| - 1], 0); }
    InPlaceSum(packet, protocol, checksumOffset);
    ghost var covered := PseudoHeader(packet, protocol, transportLength) + Zeroed(packet[headerLength..], checksumOffset);
    OnesSumFolds(Words(covered));
    var checksum := FoldAndComplement(sum);
    result := Ok(checksum);
  }

  /** The loops over whole words from `from` up to, at most, `to`. */
  method SumWords(packet: seq<byte>, from: nat, to: nat) returns (sum: nat)
    requires from <= to <= |packet|
    ensures sum == PlainSum(Words(packet[from..to])) - (if (to - from) % 2 != 0 then Word(packet[to - 1], 0) else 0)
  {
    hide Words, PlainSum;
    sum := 0;
    var offset := from;
    while offset + 1 < to
      invariant from <= offset <= to && (offset - from) % 2 == 0
      invariant sum + PlainSum(Words(packet[offset..to])) == PlainSum(Words(packet[from..to]))
    {
      assert packet[offset..to][2..] == packet[offset + 2..to];
      SumStep(packet[offset..to]);
      sum := sum + Word(packet[offset], packet[offset + 1]);
      offset := offset + 2;
    }
    LastByte(packet[from..to], offset - from);
    assert packet[from..to][offset - from..] == packet[offset..to];
  }

  /** Zeroing an aligned word takes its value out of the sum. */
  lemma {:induction false} ZeroedSum(data: seq<byte>, offset: nat)
    requires offset % 2 == 0 && offset + 2 <= |data|
    ensures PlainSum(Words(Zeroed(data, offset))) == PlainSum(Words(data)) - Word(data[offset], data[offset + 1])
    decreases offset
  {
    var z := Zeroed(data, offset);
    if offset == 0 {
      assert z[2..] == data[2..];
    } else {
      ZeroedSum(data[2..], offset - 2);
      assert z[2..] == Zeroed(data[2..], offset - 2);
    }
  }

  lemma PseudoHeaderSum(packet: seq<byte>, protocol: byte, length: u16)
    requires |packet| >= 20
    ensures PlainSum(Words(PseudoHeader(packet, protocol, length))) == PlainSum(Words(packet[12..20])) + protocol + length
  {
    hide Words, PlainSum;
    var tail: seq<byte> := [0, protocol, length / 0x100, length % 0x100];
    WordsAppend(packet[12..20], tail);
    PlainSumAppend(Words(packet[12..20]), Words(tail));
    SumStep(tail);
    SumStep(tail[2..]);
    NoBytes(tail[2..][2..]);
  }

  lemma NoBytes(data: seq<byte>)
    requires data == []
    ensures PlainSum(Words(data)) == 0
  {
  }

  lemma InPlaceSum(packet: seq<byte>, protocol: byte, checksumOffset: nat)
    requires Summable(packet, checksumOffset) && checksumOffset % 2 == 0
    ensures var n := HeaderLength(packet);
      var transport := packet[n..];
      PlainSum(Words(PseudoHeader(packet, protocol, |transport|) + Zeroed(transport, checksumOffset)))
      == PlainSum(Words(packet[12..20])) + protocol + |transport| + PlainSum(Words(packet[n..|packet|]))
         - Word(packet[n + checksumOffset], packet[n + checksumOffset + 1])
  {
    var n := HeaderLength(packet);
    var transport := packet[n..];
    assert packet[n..|packet|] == transport;
    var pseudo, zeroed := PseudoHeader(packet, protocol, |transport|), Zeroed(transport, checksumOffset);
    WordsAppend(pseudo, zeroed);
    PlainSumAppend(Words(pseudo), Words(zeroed));
    PseudoHeaderSum(packet, protocol, |transport|);
    ZeroedSum(transport, checksumOffset);
    hide PseudoHeader, Zeroed, Words, PlainSum;
  }

  // ----- a receiver's check -----

  function Stored(data: seq<byte>, offset: nat, value: u16): seq<byte>
    requires offset + 2 <= |data|
  {
    data[offset := value / 0x100][offset + 1 := value % 0x100]
  }

  /** Storing the checksum of the zeroed data in an aligned field makes the
      checksum of the whole zero, whatever the data and whatever was there. */
  lemma StoredChecksumVerifies(data: seq<byte>, offset: nat)
    requires offset % 2 == 0 && offset + 2 <= |data|
    ensures Rfc1071(Stored(data, offset, Rfc1071(Zeroed(data, offset)))) == 0
  {
    var c := Rfc1071(Zeroed(data, offset));
    var s := Stored(data, offset, c);
    assert Zeroed(s, offset) == Zeroed(data, offset);
    ZeroedSum(s, offset);
    assert Word(s[offset], s[offset + 1]) == c;
    OnesSumFolds(Words(Zeroed(data, offset)));
    OnesSumFolds(Words(s));
    Complemented(PlainSum(Words(Zeroed(data, offset))));
    hide Words, PlainSum, Fold, OnesSum, Stored, Zeroed;
  }

  lemma Complemented(n: nat)
    ensures Fold(n + (0xffff - Fold(n))) == 0xffff
  {
    FoldIsCanonical(n);
    FoldIsCanonical(n + (0xffff - Canonical(n)));
    if n > 0 {
      var k := (n - 1) / 0xffff;
      assert n - Canonical(n) == k * 0xffff;
      CanonicalMultiple(0xffff, k);
    }
    hide Fold;
  }

  /** The same for a packet whose transport checksum was written: the sum over
      the pseudo-header and the transport, field included, checks. */
  lemma WrittenChecksumVerifies(packet: seq<byte>, protocol: byte, checksumOffset: nat)
    requires Summable(packet, checksumOffset) && checksumOffset % 2 == 0
    ensures var n := HeaderLength(packet);
      var written := Stored(packet, n + checksumOffset, TransportSum(packet, protocol, checksumOffset));
      && HeaderLength(written) == n && |written| == |packet|
      && Rfc1071(PseudoHeader(written, protocol, |packet| - n) + written[n..]) == 0
  {
    var n := HeaderLength(packet);
    var sum := TransportSum(packet, protocol, checksumOffset);
    var written := Stored(packet, n + checksumOffset, sum);
    var transport := packet[n..];
    var pseudo := PseudoHeader(packet, protocol, |transport|);
    assert packet[12..20] == written[12..20];
    assert written[n..] == Stored(transport, checksumOffset, sum);
    var whole := pseudo + transport;
    assert Zeroed(whole, 12 + checksumOffset) == pseudo + Zeroed(transport, checksumOffset);
    assert Stored(whole, 12 + checksumOffset, sum) == pseudo + Stored(transport, checksumOffset, sum);
    StoredChecksumVerifies(whole, 12 + checksumOffset);
    hide Rfc1071;
  }
}
