/** Out-of-order reassembly (tcp_utils.js:18-65). A buffer holds byte ranges
    keyed by sequence number; its meaning is a partial map from offsets
    relative to the next expected byte to bytes. */
module Reassembly {
  import opened Bytes
  import opened SequenceNumbers

  type Ranges = map<U32, seq<byte>>

  /** `vmSeq`, `vmOutOfOrder` and `vmOutOfOrderBytes` of a connection. */
  datatype Buffer = Buffer(vmSeq: U32, ranges: Ranges, bytes: int)

  /** Where a range starts, relative to the next expected byte; negative once
      delivery has passed its first byte. */
  function Offset(key: U32, vmSeq: U32): int { Signed(key - vmSeq) }

  // ----- the order in which ranges are visited -----

  /** The sort keys of the two functions: an unsigned distance when buffering,
      a signed one when draining. */
  function SortKey(key: U32, vmSeq: U32, signed: bool): int {
    if signed then Signed(key - vmSeq) else Wrap(key - vmSeq)
  }

  lemma SortKeyInjective(a: U32, b: U32, vmSeq: U32, signed: bool)
    requires SortKey(a, vmSeq, signed) == SortKey(b, vmSeq, signed)
    ensures a == b
  {
  }

  predicate LeastKey(k: U32, keys: set<U32>, vmSeq: U32, signed: bool) {
    k in keys && forall x <- keys :: SortKey(k, vmSeq, signed) <= SortKey(x, vmSeq, signed)
  }

  lemma {:induction false} LeastKeyExists(keys: set<U32>, vmSeq: U32, signed: bool)
    requires keys != {}
    ensures exists k :: LeastKey(k, keys, vmSeq, signed)
    decreases |keys|
  {
    var a :| a in keys;
    if keys - {a} == {} {
      assert keys == {a};
      assert LeastKey(a, keys, vmSeq, signed);
    } else {
      LeastKeyExists(keys - {a}, vmSeq, signed);
      var b :| LeastKey(b, keys - {a}, vmSeq, signed);
      var k := if SortKey(a, vmSeq, signed) <= SortKey(b, vmSeq, signed) then a else b;
      assert forall x <- keys :: x == a || x in keys - {a};
      assert LeastKey(k, keys, vmSeq, signed);
    }
  }

  /** `[...ranges].sort(...)`: the keys in visiting order. */
  ghost function SortedKeys(keys: set<U32>, vmSeq: U32, signed: bool): seq<U32>
    decreases |keys|
  {
    if keys == {} then []
    else
      LeastKeyExists(keys, vmSeq, signed);
      var k :| LeastKey(k, keys, vmSeq, signed);
      [k] + SortedKeys(keys - {k}, vmSeq, signed)
  }

  predicate Ascending(s: seq<U32>, vmSeq: U32, signed: bool) {
    forall i, j :: 0 <= i < j < |s| ==> SortKey(s[i], vmSeq, signed) < SortKey(s[j], vmSeq, signed)
  }

  lemma {:induction false} SortedKeysSorts(keys: set<U32>, vmSeq: U32, signed: bool)
    ensures var s := SortedKeys(keys, vmSeq, signed);
      && (forall k :: k in s <==> k in keys)
      && Ascending(s, vmSeq, signed)
    decreases |keys|
  {
    if keys != {} {
      LeastKeyExists(keys, vmSeq, signed);
      var s := SortedKeys(keys, vmSeq, signed);
      var k := s[0];
      assert LeastKey(k, keys, vmSeq, signed) && s[1..] == SortedKeys(keys - {k}, vmSeq, signed);
      SortedKeysSorts(keys - {k}, vmSeq, signed);
      assert forall x :: x in s <==> x == k || x in s[1..];
      forall i, j | 0 <= i < j < |s| ensures SortKey(s[i], vmSeq, signed) < SortKey(s[j], vmSeq, signed) {
        if i == 0 {
          assert s[j] == s[1..][j - 1] && s[j] in s[1..];
          if SortKey(k, vmSeq, signed) == SortKey(s[j], vmSeq, signed) { SortKeyInjective(k, s[j], vmSeq, signed); }
        } else {
          assert s[i] == s[1..][i - 1] && s[j] == s[1..][j - 1];
        }
      }
    }
  }

  /** The first of ascending keys is the least, and the rest sorts the rest. */
  lemma AscendingHead(keys: set<U32>, vmSeq: U32, signed: bool, s: seq<U32>)
    requires s != [] && (forall k :: k in s <==> k in keys) && Ascending(s, vmSeq, signed)
    ensures LeastKey(s[0], keys, vmSeq, signed)
    ensures (forall k :: k in s[1..] <==> k in keys - {s[0]}) && Ascending(s[1..], vmSeq, signed)
  {
    forall i | 0 < i < |s| ensures SortKey(s[0], vmSeq, signed) < SortKey(s[i], vmSeq, signed) {}
    assert forall x :: x in s <==> x == s[0] || x in s[1..];
    assert s[0] !in s[1..];
    hide SortKey;
  }

  /** A sequence that sorts the keys is the visiting order. */
  lemma {:induction false} SortedKeysUnique(keys: set<U32>, vmSeq: U32, signed: bool, s: seq<U32>)
    requires (forall k :: k in s <==> k in keys) && Ascending(s, vmSeq, signed)
    ensures s == SortedKeys(keys, vmSeq, signed)
    decreases |keys|
  {
    if s == [] {
      assert keys == {};
    } else {
      assert s[0] in keys;
      AscendingHead(keys, vmSeq, signed, s);
      LeastKeyExists(keys, vmSeq, signed);
      var t := SortedKeys(keys, vmSeq, signed);
      assert LeastKey(t[0], keys, vmSeq, signed) && t == [t[0]] + SortedKeys(keys - {t[0]}, vmSeq, signed);
      SortKeyInjective(s[0], t[0], vmSeq, signed);
      hide Ascending, SortKey;
      SortedKeysUnique(keys - {s[0]}, vmSeq, signed, s[1..]);
      assert s == [s[0]] + s[1..];
    }
  }

  // ----- what the two functions compute -----

  /** `add(from, to)`: keep the payload bytes at the offsets [from, to). */
  function Add(b: Buffer, start: int, payload: seq<byte>, from: int, to: int): Buffer {
    if to <= from || !(start <= from && to - start <= |payload|) then b
    else
      b.(ranges := b.ranges[Wrap(b.vmSeq + from) := payload[from - start..to - start]],
         bytes := b.bytes + (to - from))
  }

  /** The loop of `bufferTCPOutOfOrder` over the ranges `held` before it began. */
  function Fill(b: Buffer, held: Ranges, keys: seq<U32>, start: int, payload: seq<byte>, cursor: int, end: int): Buffer
    decreases |keys|
  {
    if keys == [] || keys[0] !in held then Add(b, start, payload, cursor, end)
    else
      var offset := Wrap(keys[0] - b.vmSeq);
      var stop := offset + |held[keys[0]]|;
      if offset >= end then Add(b, start, payload, cursor, end)
      else if stop <= cursor then Fill(b, held, keys[1..], start, payload, cursor, end)
      else
        var b' := Add(b, start, payload, cursor, Min(offset, end));
        if Max(cursor, stop) >= end then b'
        else Fill(b', held, keys[1..], start, payload, Max(cursor, stop), end)
  }

  ghost function BufferOutOfOrder(b: Buffer, sequence: U32, payload: seq<byte>, capacity: int): Buffer {
    var start := Wrap(sequence - b.vmSeq);
    if start == 0 || start >= capacity then b
    else
      Fill(b, b.ranges, SortedKeys(b.ranges.Keys, b.vmSeq, false), start, payload, start,
           Min(start + |payload|, capacity))
  }

  /** The loop of `drainTCPOutOfOrder`: the buffer left, and the chunks written. */
  function Drain(b: Buffer, keys: seq<U32>): (Buffer, seq<seq<byte>>)
    decreases |keys|
  {
    if keys == [] || keys[0] !in b.ranges then (b, [])
    else if Signed(keys[0] - b.vmSeq) > 0 then (b, [])
    else
      var k := keys[0];
      var held := b.ranges[k];
      var b' := b.(ranges := b.ranges - {k}, bytes := b.bytes - |held|);
      var consumed := Wrap(b.vmSeq - k);
      if consumed >= |held| then Drain(b', keys[1..])
      else
        var (r, chunks) := Drain(b'.(vmSeq := Wrap(b.vmSeq + (|held| - consumed))), keys[1..]);
        (r, [held[consumed..]] + chunks)
  }

  ghost function DrainOutOfOrder(b: Buffer): (Buffer, seq<seq<byte>>) {
    Drain(b, SortedKeys(b.ranges.Keys, b.vmSeq, true))
  }
}
