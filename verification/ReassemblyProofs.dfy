/** The reassembly buffer refines a partial map from stream offsets to bytes:
    buffering adds exactly the missing bytes inside the window, and draining
    delivers exactly the bytes up to the first missing one. */
module ReassemblyProofs {
  import opened Bytes
  import opened SequenceNumbers
  import opened Reassembly

  const QUARTER: int := 0x4000_0000

  // ----- the partial map -----

  ghost predicate Covers(b: Buffer, k: U32, o: int) {
    k in b.ranges && Offset(k, b.vmSeq) <= o < Offset(k, b.vmSeq) + |b.ranges[k]|
  }

  /** Some byte is held for offset `o`. */
  ghost predicate Occupied(b: Buffer, o: int) { exists k :: Covers(b, k, o) }

  /** The byte held for offset `o` is `x`. */
  ghost predicate Held(b: Buffer, o: int, x: byte) {
    exists k :: Covers(b, k, o) && b.ranges[k][o - Offset(k, b.vmSeq)] == x
  }

  /** The bytes of all ranges together. */
  ghost function Total(r: Ranges): nat
    decreases |r|
  {
    if r == map[] then 0
    else
      var k :| k in r;
      |r[k]| + Total(r - {k})
  }

  lemma {:induction false} TotalRemove(r: Ranges, k: U32)
    requires k in r
    ensures Total(r) == |r[k]| + Total(r - {k})
    decreases |r|
  {
    var j :| j in r && Total(r) == |r[j]| + Total(r - {j});
    if j != k {
      TotalRemove(r - {j}, k);
      TotalRemove(r - {k}, j);
      assert r - {j} - {k} == r - {k} - {j};
    }
  }

  lemma TotalAdd(r: Ranges, k: U32, v: seq<byte>)
    requires k !in r
    ensures Total(r[k := v]) == Total(r) + |v|
  {
    TotalRemove(r[k := v], k);
    assert r[k := v] - {k} == r;
  }

  /** Nonempty, pairwise disjoint ranges inside [lo, hi), counted exactly. */
  ghost predicate Ok(b: Buffer, lo: int, hi: int) {
    // `true ==` makes the conjunction one fact, which a caller proves at once and not clause by clause.
    true == (
    && -QUARTER <= lo <= hi <= QUARTER
    && Inside(b, lo, hi)
    && Apart(b)
    && b.bytes == Total(b.ranges))
  }

  ghost predicate Inside(b: Buffer, lo: int, hi: int) {
    forall k <- b.ranges ::
      b.ranges[k] != [] && lo <= Offset(k, b.vmSeq) && Offset(k, b.vmSeq) + |b.ranges[k]| <= hi
  }

  ghost predicate Apart(b: Buffer) {
    forall j, k | j in b.ranges && k in b.ranges && j != k ::
      Offset(j, b.vmSeq) + |b.ranges[j]| <= Offset(k, b.vmSeq) || Offset(k, b.vmSeq) + |b.ranges[k]| <= Offset(j, b.vmSeq)
  }

  /** No offset ever has two bytes. */
  lemma HeldOnce(b: Buffer, o: int, x: byte, y: byte)
    requires Apart(b) && Held(b, o, x) && Held(b, o, y)
    ensures x == y
  {
    var j :| Covers(b, j, o) && b.ranges[j][o - Offset(j, b.vmSeq)] == x;
    var k :| Covers(b, k, o) && b.ranges[k][o - Offset(k, b.vmSeq)] == y;
    assert j == k;
  }

  lemma OffsetOfKey(vmSeq: U32, o: int)
    requires -HALF <= o < HALF
    ensures Offset(Wrap(vmSeq + o), vmSeq) == o
  {
  }

  lemma KeyOfOffset(k: U32, vmSeq: U32)
    ensures Wrap(vmSeq + Offset(k, vmSeq)) == k
    ensures -HALF <= Offset(k, vmSeq) < HALF
    ensures 0 <= Offset(k, vmSeq) ==> Wrap(k - vmSeq) == Offset(k, vmSeq)
    ensures Offset(k, vmSeq) < 0 ==> Wrap(k - vmSeq) >= HALF && Wrap(vmSeq - k) == -Offset(k, vmSeq)
    ensures Offset(k, vmSeq) == 0 ==> Wrap(vmSeq - k) == 0
  {
  }

  // ----- buffering -----

  /** What adding the payload at the free offsets of [from, to) does to the map. */
  ghost predicate Extends(b: Buffer, b': Buffer, start: int, payload: seq<byte>, from: int, to: int) {
    && b'.vmSeq == b.vmSeq
    && (forall o, x :: Held(b', o, x) <==>
          Held(b, o, x) || (from <= o < to && 0 <= o - start < |payload| && x == payload[o - start] && !Occupied(b, o)))
  }

  lemma FreeKey(b: Buffer, from: int)
    requires Ok(b, -QUARTER, QUARTER) && !Occupied(b, from) && -QUARTER <= from <= QUARTER
    ensures Wrap(b.vmSeq + from) !in b.ranges && Offset(Wrap(b.vmSeq + from), b.vmSeq) == from
  {
    var key := Wrap(b.vmSeq + from);
    OffsetOfKey(b.vmSeq, from);
    hide Offset;
    assert key in b.ranges ==> Covers(b, key, from);
  }

  lemma Widen(b: Buffer, lo: int, hi: int, lo': int, hi': int)
    requires Ok(b, lo, hi) && -QUARTER <= lo' <= lo && hi <= hi' <= QUARTER
    ensures Ok(b, lo', hi')
  {
    hide Offset, Total, Apart;
  }

  lemma AddExtends(b: Buffer, start: int, payload: seq<byte>, from: int, to: int, lo: int, hi: int)
    requires Ok(b, lo, hi) && lo <= start <= from && to <= hi && to - start <= |payload|
    requires forall o :: from <= o < to ==> !Occupied(b, o)
    ensures var b' := Add(b, start, payload, from, to);
      Ok(b', lo, hi) && Extends(b, b', start, payload, from, to)
  {
    if from < to {
      AddOk(b, start, payload, from, to, lo, hi);
      var key := Wrap(b.vmSeq + from);
      var chunk := payload[from - start..to - start];
      var b' := Add(b, start, payload, from, to);
      Widen(b, lo, hi, -QUARTER, QUARTER);
      FreeKey(b, from);
      hide Offset, Ok, Held, Occupied, Wrap;
      forall o, x ensures Held(b', o, x) <==>
          Held(b, o, x) || (from <= o < to && 0 <= o - start < |payload| && x == payload[o - start] && !Occupied(b, o)) {
        AddHeld(b, b', key, chunk, start, payload, from, to, o, x);
      }
    }
  }

  lemma AddOk(b: Buffer, start: int, payload: seq<byte>, from: int, to: int, lo: int, hi: int)
    requires Ok(b, lo, hi) && lo <= start <= from < to <= hi && to - start <= |payload|
    requires forall o :: from <= o < to ==> !Occupied(b, o)
    ensures Ok(Add(b, start, payload, from, to), lo, hi)
  {
    var key := Wrap(b.vmSeq + from);
    var b' := Add(b, start, payload, from, to);
    Widen(b, lo, hi, -QUARTER, QUARTER);
    FreeKey(b, from);
    hide Offset, Occupied, Wrap;
    TotalAdd(b.ranges, key, payload[from - start..to - start]);
    AddApart(b, b', key, from, to);
    hide Total, Apart;
    assert Inside(b', lo, hi);
  }

  lemma AddApart(b: Buffer, b': Buffer, key: U32, from: int, to: int)
    requires Apart(b) && key !in b.ranges && b'.vmSeq == b.vmSeq && Offset(key, b.vmSeq) == from < to
    requires b'.ranges.Keys == b.ranges.Keys + {key} && |b'.ranges[key]| == to - from
    requires forall k <- b.ranges :: k in b'.ranges && b'.ranges[k] == b.ranges[k] && b.ranges[k] != []
    requires forall o :: from <= o < to ==> !Occupied(b, o)
    ensures Apart(b')
  {
    hide Offset;
    forall k | k in b.ranges
      ensures Offset(k, b.vmSeq) + |b.ranges[k]| <= from || to <= Offset(k, b.vmSeq)
    {
      var o := Max(from, Offset(k, b.vmSeq));
      if from <= o < to { assert !Occupied(b, o); assert !Covers(b, k, o); }
    }
  }

  lemma AddHeld(b: Buffer, b': Buffer, key: U32, chunk: seq<byte>, start: int, payload: seq<byte>, from: int, to: int,
                o: int, x: byte)
    requires key !in b.ranges && b' == b.(ranges := b.ranges[key := chunk], bytes := b'.bytes)
    requires Offset(key, b.vmSeq) == from && start <= from < to && to - start <= |payload|
    requires chunk == payload[from - start..to - start]
    requires forall o :: from <= o < to ==> !Occupied(b, o)
    ensures Held(b', o, x) <==>
          Held(b, o, x) || (from <= o < to && 0 <= o - start < |payload| && x == payload[o - start] && !Occupied(b, o))
  {
    hide Offset;
    if Held(b, o, x) {
      var k :| Covers(b, k, o) && b.ranges[k][o - Offset(k, b.vmSeq)] == x;
      assert Covers(b', k, o);
    }
    if from <= o < to && x == payload[o - start] {
      assert Covers(b', key, o) && b'.ranges[key][o - from] == x;
    }
    if Held(b', o, x) {
      var k :| Covers(b', k, o) && b'.ranges[k][o - Offset(k, b.vmSeq)] == x;
      if k != key { assert Covers(b, k, o); }
    }
  }

  lemma ExtendsTrans(a: Buffer, b: Buffer, c: Buffer, start: int, payload: seq<byte>, from: int, mid: int, skip: int, to: int)
    requires Extends(a, b, start, payload, from, mid) && Extends(b, c, start, payload, skip, to)
    requires from <= skip && mid <= to && mid <= skip
    requires forall o :: Max(from, mid) <= o < Min(skip, to) ==> Occupied(a, o)
    ensures Extends(a, c, start, payload, from, to)
  {
    hide Covers;
    forall o, x ensures Held(c, o, x) <==>
          Held(a, o, x) || (from <= o < to && 0 <= o - start < |payload| && x == payload[o - start] && !Occupied(a, o)) {
      OccupiedMeansHeld(a, o);
      OccupiedMeansHeld(b, o);
    }
  }

  lemma OccupiedMeansHeld(b: Buffer, o: int)
    ensures Occupied(b, o) <==> exists x :: Held(b, o, x)
  {
    if Occupied(b, o) {
      var k :| Covers(b, k, o);
      assert Held(b, o, b.ranges[k][o - Offset(k, b.vmSeq)]);
    }
  }

  /** The loop's state: the keys still to visit ascend and are held unchanged;
      every other range ends at or before the cursor. */
  ghost predicate Filling(b: Buffer, held: Ranges, keys: seq<U32>, cursor: int) {
    && (forall k <- keys :: k in held && k in b.ranges && b.ranges[k] == held[k])
    && Ascending(keys, b.vmSeq, false)
    && (forall k <- b.ranges :: k in keys || Offset(k, b.vmSeq) + |b.ranges[k]| <= cursor)
  }

  /** Unvisited ranges all start at or after the first of them. */
  lemma FreeUpTo(b: Buffer, held: Ranges, keys: seq<U32>, cursor: int, hi: int, stop: int)
    requires Ok(b, 1, hi) && Filling(b, held, keys, cursor)
    requires keys != [] ==> stop <= Offset(keys[0], b.vmSeq)
    ensures forall o :: cursor <= o < stop ==> !Occupied(b, o)
  {
    forall o, k | cursor <= o < stop ensures !Covers(b, k, o) {
      if k in b.ranges && k in keys {
        var i :| 0 <= i < |keys| && keys[i] == k;
        KeyOfOffset(keys[0], b.vmSeq);
        KeyOfOffset(k, b.vmSeq);
        assert Offset(keys[0], b.vmSeq) >= 1 && Offset(k, b.vmSeq) >= 1;
        assert i > 0 ==> SortKey(keys[0], b.vmSeq, false) < SortKey(k, b.vmSeq, false);
      }
    }
    hide Offset;
  }

  lemma FillingRest(b: Buffer, held: Ranges, keys: seq<U32>, cursor: int, hi: int, next: int)
    requires Ok(b, 1, hi) && Filling(b, held, keys, cursor) && keys != []
    requires next == Max(cursor, Offset(keys[0], b.vmSeq) + |b.ranges[keys[0]]|)
    ensures Filling(b, held, keys[1..], next)
  {
    hide Offset, SortKey, Total, Apart;
    forall i, j | 0 <= i < j < |keys[1..]| ensures SortKey(keys[1..][i], b.vmSeq, false) < SortKey(keys[1..][j], b.vmSeq, false) {
      assert keys[1..][i] == keys[i + 1] && keys[1..][j] == keys[j + 1];
    }
    forall k | k in b.ranges ensures k in keys[1..] || Offset(k, b.vmSeq) + |b.ranges[k]| <= next {
      if k in keys && k != keys[0] { assert k in keys[1..]; }
    }
  }

  lemma AddFilling(b: Buffer, held: Ranges, keys: seq<U32>, start: int, payload: seq<byte>, from: int, to: int, hi: int)
    requires Ok(b, 1, hi) && Filling(b, held, keys, from) && 1 <= start <= from && to <= hi && to - start <= |payload|
    requires forall o :: from <= o < to ==> !Occupied(b, o)
    ensures forall next :: next >= Max(from, to) ==> Filling(Add(b, start, payload, from, to), held, keys, next)
  {
    if from < to {
      Widen(b, 1, hi, -QUARTER, QUARTER);
      FreeKey(b, from);
    }
    hide Offset, SortKey, Total, Apart, Wrap;
  }

  lemma UnsignedOffset(b: Buffer, k: U32, lo: int, hi: int)
    requires Ok(b, lo, hi) && k in b.ranges && 0 <= lo
    ensures Wrap(k - b.vmSeq) == Offset(k, b.vmSeq)
  {
    KeyOfOffset(k, b.vmSeq);
  }

  /** Filling the gap before the range `keys[0]`, which ends beyond the cursor. */
  lemma FillGap(b: Buffer, held: Ranges, keys: seq<U32>, start: int, payload: seq<byte>, cursor: int, end: int, hi: int)
    requires Ok(b, 1, hi) && Filling(b, held, keys, cursor) && keys != []
    requires 1 <= start <= cursor <= end <= hi && end - start <= |payload|
    requires Offset(keys[0], b.vmSeq) < end && cursor < Offset(keys[0], b.vmSeq) + |held[keys[0]]|
    ensures var offset := Offset(keys[0], b.vmSeq);
      var b' := Add(b, start, payload, cursor, offset);
      && Ok(b', 1, hi) && Extends(b, b', start, payload, cursor, offset)
      && Filling(b', held, keys[1..], offset + |held[keys[0]]|)
      && forall o :: Max(cursor, offset) <= o < offset + |held[keys[0]]| ==> Occupied(b, o)
  {
    hide Ok, Held, Wrap, Extends;
    var k := keys[0];
    var offset := Offset(k, b.vmSeq);
    assert k in keys;
    FreeUpTo(b, held, keys, cursor, hi, offset);
    forall o | Max(cursor, offset) <= o < offset + |held[k]| ensures Occupied(b, o) { assert Covers(b, k, o); }
    hide Offset, Occupied, Covers;
    AddExtends(b, start, payload, cursor, offset, 1, hi);
    AddFilling(b, held, keys, start, payload, cursor, offset, hi);
    var b' := Add(b, start, payload, cursor, offset);
    FillingRest(b', held, keys, Max(cursor, offset), hi, offset + |held[k]|);
  }

  lemma NothingExtends(b: Buffer, start: int, payload: seq<byte>, at: int)
    ensures Extends(b, b, start, payload, at, at)
  {
  }

  /** The loop fills exactly the free offsets of [cursor, end). */
  lemma {:induction false} FillExtends(b: Buffer, held: Ranges, keys: seq<U32>, start: int, payload: seq<byte>,
                                       cursor: int, end: int, hi: int)
    requires Ok(b, 1, hi) && Filling(b, held, keys, cursor)
    requires 1 <= start <= cursor <= end <= hi && end - start <= |payload|
    ensures var b' := Fill(b, held, keys, start, payload, cursor, end);
      Ok(b', 1, hi) && Extends(b, b', start, payload, cursor, end)
    decreases |keys|
  {
    hide Offset, Ok, Held, Occupied, Wrap, Filling, Extends, Add;
    if keys == [] {
      FreeUpTo(b, held, keys, cursor, hi, end);
      AddExtends(b, start, payload, cursor, end, 1, hi);
    } else {
      var k := keys[0];
      FirstIsHeld(b, held, keys, cursor, hi);
      var offset := Offset(k, b.vmSeq);
      var stop := offset + |held[k]|;
      if offset >= end {
        FreeUpTo(b, held, keys, cursor, hi, end);
        AddExtends(b, start, payload, cursor, end, 1, hi);
      } else if stop <= cursor {
        FillingRest(b, held, keys, cursor, hi, cursor);
        FillExtends(b, held, keys[1..], start, payload, cursor, end, hi);
      } else {
        FillGap(b, held, keys, start, payload, cursor, end, hi);
        var b' := Add(b, start, payload, cursor, offset);
        if stop >= end {
          NothingExtends(b', start, payload, end);
          ExtendsTrans(b, b', b', start, payload, cursor, offset, end, end);
        } else {
          AddKeepsSeq(b, start, payload, cursor, offset);
          FillExtends(b', held, keys[1..], start, payload, stop, end, hi);
          var c := Fill(b', held, keys[1..], start, payload, stop, end);
          ExtendsTrans(b, b', c, start, payload, cursor, offset, stop, end);
        }
      }
    }
  }

  lemma AddKeepsSeq(b: Buffer, start: int, payload: seq<byte>, from: int, to: int)
    ensures Add(b, start, payload, from, to).vmSeq == b.vmSeq
  {
  }

  lemma FirstIsHeld(b: Buffer, held: Ranges, keys: seq<U32>, cursor: int, hi: int)
    requires Ok(b, 1, hi) && Filling(b, held, keys, cursor) && keys != []
    ensures keys[0] in held && keys[0] in b.ranges && held[keys[0]] == b.ranges[keys[0]]
    ensures Wrap(keys[0] - b.vmSeq) == Offset(keys[0], b.vmSeq) >= 1 && |held[keys[0]]| > 0
  {
    assert keys[0] in keys;
    UnsignedOffset(b, keys[0], 1, hi);
  }

  lemma FillingStarts(b: Buffer, keys: seq<U32>, start: int)
    requires (forall k :: k in keys <==> k in b.ranges.Keys) && Ascending(keys, b.vmSeq, false)
    ensures Filling(b, b.ranges, keys, start)
  {
    hide SortKey, Offset;
  }

  /** Reassembly refines a partial map: buffering a segment adds exactly the
      payload bytes at the missing offsets of [start, min(start + length,
      capacity)), keeps the ranges disjoint, and counts them exactly. */
  lemma BufferRefinesMap(b: Buffer, sequence: U32, payload: seq<byte>, capacity: int)
    requires Ok(b, 1, capacity)
    ensures var b' := BufferOutOfOrder(b, sequence, payload, capacity);
      var start := Wrap(sequence - b.vmSeq);
      && Ok(b', 1, capacity)
      && (if 0 < start < capacity then Extends(b, b', start, payload, start, Min(start + |payload|, capacity)) else b' == b)
  {
    var start := Wrap(sequence - b.vmSeq);
    hide Offset, Ok, Held, Occupied, Filling, Wrap, Extends;
    if 0 < start < capacity {
      var keys := SortedKeys(b.ranges.Keys, b.vmSeq, false);
      SortedKeysSorts(b.ranges.Keys, b.vmSeq, false);
      FillingStarts(b, keys, start);
      Bounds(b, 1, capacity);
      hide Ascending, Fill;
      FillExtends(b, b.ranges, keys, start, payload, start, Min(start + |payload|, capacity), capacity);
    }
  }

  lemma Bounds(b: Buffer, lo: int, hi: int)
    requires Ok(b, lo, hi)
    ensures lo <= hi && -QUARTER <= lo && hi <= QUARTER && b.bytes == Total(b.ranges)
  {
  }

  /** The bytes buffered always fit in what the window leaves behind the next
      expected byte. */
  lemma {:induction false} TotalBelow(b: Buffer, lo: int, hi: int)
    requires Ok(b, lo, hi)
    ensures b.bytes <= hi - lo
    decreases |b.ranges|
  {
    hide Ok, Offset, Ascending, Total, SortedKeys;
    Bounds(b, lo, hi);
    if b.ranges == map[] {
      TotalEmpty();
    } else {
      var k :| k in b.ranges;
      var keys := SortedKeys(b.ranges.Keys, b.vmSeq, true);
      SortedKeysSorts(b.ranges.Keys, b.vmSeq, true);
      assert k in keys;
      WithoutLast(b, keys, lo, hi);
      var last := keys[|keys| - 1];
      TotalBelow(Without(b, last), lo, Offset(last, b.vmSeq));
    }
  }

  lemma TotalEmpty()
    ensures Total(map[]) == 0
  {
  }

  function Without(b: Buffer, k: U32): Buffer
    requires k in b.ranges
  {
    b.(ranges := b.ranges - {k}, bytes := b.bytes - |b.ranges[k]|)
  }

  lemma RemoveOk(b: Buffer, k: U32, lo: int, hi: int)
    requires k in b.ranges && Apart(b) && b.bytes == Total(b.ranges) && -QUARTER <= lo <= hi <= QUARTER
    requires forall j | j in b.ranges && j != k ::
      b.ranges[j] != [] && lo <= Offset(j, b.vmSeq) && Offset(j, b.vmSeq) + |b.ranges[j]| <= hi
    ensures Ok(Without(b, k), lo, hi)
  {
    TotalRemove(b.ranges, k);
    hide Total, Offset;
  }

  lemma Opened(b: Buffer, lo: int, hi: int)
    requires Ok(b, lo, hi)
    ensures Inside(b, lo, hi) && Inside(b, -QUARTER, QUARTER) && Apart(b)
    ensures -QUARTER <= lo <= hi <= QUARTER && b.bytes == Total(b.ranges)
  {
    hide Total, Offset;
  }

  lemma WithoutLast(b: Buffer, keys: seq<U32>, lo: int, hi: int)
    requires Ok(b, lo, hi) && keys != [] && Ascending(keys, b.vmSeq, true)
    requires forall k :: k in keys <==> k in b.ranges.Keys
    ensures keys[|keys| - 1] in b.ranges
    ensures var last := keys[|keys| - 1];
      && Offset(last, b.vmSeq) + |b.ranges[last]| <= hi
      && Ok(Without(b, last), lo, Offset(last, b.vmSeq))
  {
    hide Ok, SortKey, Total, Offset, Ascending, Apart;
    var last := keys[|keys| - 1];
    assert last in keys;
    Opened(b, lo, hi);
    LastAbove(b, keys);
    RemoveOk(b, last, lo, Offset(last, b.vmSeq));
  }

  lemma LastAbove(b: Buffer, keys: seq<U32>)
    requires Apart(b) && Inside(b, -QUARTER, QUARTER) && keys != [] && Ascending(keys, b.vmSeq, true)
    requires forall k :: k in keys <==> k in b.ranges.Keys
    ensures var last := keys[|keys| - 1];
      forall k | k in b.ranges && k != last :: Offset(k, b.vmSeq) + |b.ranges[k]| <= Offset(last, b.vmSeq)
  {
    var last := keys[|keys| - 1];
    assert last in keys;
    forall k | k in b.ranges && k != last ensures Offset(k, b.vmSeq) + |b.ranges[k]| <= Offset(last, b.vmSeq) {
      assert k in keys;
      var i :| 0 <= i < |keys| && keys[i] == k;
      assert SortKey(keys[i], b.vmSeq, true) < SortKey(last, b.vmSeq, true);
    }
  }

  // ----- delivery -----

  /** Moving the next expected byte forward by `n` moves every offset back by `n`. */
  ghost predicate Shifted(b: Buffer, b': Buffer, n: int) {
    && b'.ranges == b.ranges
    && (forall k <- b.ranges :: Offset(k, b'.vmSeq) == Offset(k, b.vmSeq) - n)
    && (forall o, x :: Held(b', o - n, x) <==> Held(b, o, x))
  }

  lemma ShiftOffset(k: U32, vmSeq: U32, n: int)
    requires -QUARTER <= Offset(k, vmSeq) <= QUARTER && 0 <= n <= QUARTER
    ensures Offset(k, Wrap(vmSeq + n)) == Offset(k, vmSeq) - n
  {
  }

  lemma AdvanceShifts(b: Buffer, n: int)
    requires Inside(b, -QUARTER, QUARTER) && 0 <= n <= QUARTER
    ensures Shifted(b, b.(vmSeq := Wrap(b.vmSeq + n)), n)
  {
    var b' := b.(vmSeq := Wrap(b.vmSeq + n));
    forall k | k in b.ranges ensures Offset(k, b'.vmSeq) == Offset(k, b.vmSeq) - n {
      assert b.ranges[k] != [] && -QUARTER <= Offset(k, b.vmSeq);
      ShiftOffset(k, b.vmSeq, n);
    }
    hide Offset;
    forall o, x ensures Held(b', o - n, x) <==> Held(b, o, x) {
      if Held(b, o, x) {
        var k :| Covers(b, k, o) && b.ranges[k][o - Offset(k, b.vmSeq)] == x;
        assert Covers(b', k, o - n);
      }
      if Held(b', o - n, x) {
        var k :| Covers(b', k, o - n) && b'.ranges[k][o - n - Offset(k, b'.vmSeq)] == x;
        assert Covers(b, k, o);
      }
    }
  }

  lemma ShiftKeepsOk(b: Buffer, n: int, lo: int, hi: int)
    requires Ok(b, lo, hi) && 0 <= n <= QUARTER && -QUARTER <= lo - n
    ensures Ok(b.(vmSeq := Wrap(b.vmSeq + n)), lo - n, hi - n)
  {
    Opened(b, lo, hi) by { hide Ok; }
    AdvanceShifts(b, n);
    hide Offset, Held, Total;
  }

  /** `delivered` is exactly the run of held bytes from offset 0 up to the first
      missing one; `r` keeps exactly what lies beyond it. */
  ghost predicate Delivers(b: Buffer, r: Buffer, delivered: seq<byte>) {
    && (forall i :: 0 <= i < |delivered| ==> Held(b, i, delivered[i]))
    && !Occupied(b, |delivered|)
    && r.vmSeq == Wrap(b.vmSeq + |delivered|)
    && (forall o, x :: o > 0 ==> (Held(r, o, x) <==> Held(b, o + |delivered|, x)))
  }

  ghost predicate Visits(b: Buffer, keys: seq<U32>) {
    (forall k :: k in keys <==> k in b.ranges.Keys) && Ascending(keys, b.vmSeq, true)
  }

  /** Removing the first range in order leaves the later ones, all behind its end. */
  lemma WithoutFirst(b: Buffer, keys: seq<U32>, lo: int, hi: int)
    requires Ok(b, lo, hi) && keys != [] && Visits(b, keys)
    ensures keys[0] in b.ranges
    ensures var k := keys[0];
      var end := Offset(k, b.vmSeq) + |b.ranges[k]|;
      && lo <= Offset(k, b.vmSeq) < end <= hi
      && Ok(Without(b, k), end, hi) && Visits(Without(b, k), keys[1..])
      && (forall o, x :: Held(Without(b, k), o, x) <==> o >= end && Held(b, o, x))
  {
    var k := keys[0];
    assert k in keys;
    FirstRemoves(b, keys, lo, hi);
    AscendingHead(b.ranges.Keys, b.vmSeq, true, keys);
    hide Ok, SortKey, Offset, Ascending, Held, LeastKey;
    RemoveHeld(b, k);
  }

  lemma FirstRemoves(b: Buffer, keys: seq<U32>, lo: int, hi: int)
    requires Ok(b, lo, hi) && keys != [] && Visits(b, keys) && keys[0] in b.ranges
    ensures var k := keys[0];
      var end := Offset(k, b.vmSeq) + |b.ranges[k]|;
      && lo <= Offset(k, b.vmSeq) < end <= hi
      && Ok(Without(b, k), end, hi)
      && forall j | j in b.ranges && j != k :: end <= Offset(j, b.vmSeq)
  {
    AscendingHead(b.ranges.Keys, b.vmSeq, true, keys);
    hide SortKey, Total, Offset, Ascending, LeastKey, Ok, Apart;
    Opened(b, lo, hi);
    FirstBelow(b, keys[0]);
    RemoveOk(b, keys[0], Offset(keys[0], b.vmSeq) + |b.ranges[keys[0]]|, hi);
  }

  lemma FirstBelow(b: Buffer, k: U32)
    requires Apart(b) && Inside(b, -QUARTER, QUARTER) && LeastKey(k, b.ranges.Keys, b.vmSeq, true)
    ensures forall j | j in b.ranges && j != k :: Offset(k, b.vmSeq) + |b.ranges[k]| <= Offset(j, b.vmSeq)
  {
    forall j | j in b.ranges && j != k ensures Offset(k, b.vmSeq) + |b.ranges[k]| <= Offset(j, b.vmSeq) {
      assert SortKey(k, b.vmSeq, true) <= SortKey(j, b.vmSeq, true);
      assert b.ranges[j] != [];
    }
  }

  lemma RemoveHeld(b: Buffer, k: U32)
    requires k in b.ranges
    requires forall j | j in b.ranges && j != k :: Offset(k, b.vmSeq) + |b.ranges[k]| <= Offset(j, b.vmSeq)
    ensures var end := Offset(k, b.vmSeq) + |b.ranges[k]|;
      forall o, x :: Held(Without(b, k), o, x) <==> o >= end && Held(b, o, x)
  {
    hide Offset;
    var end := Offset(k, b.vmSeq) + |b.ranges[k]|;
    var b' := Without(b, k);
    forall o, x ensures Held(b', o, x) <==> o >= end && Held(b, o, x) {
      if Held(b', o, x) {
        var j :| Covers(b', j, o) && b'.ranges[j][o - Offset(j, b.vmSeq)] == x;
        assert Covers(b, j, o);
      }
      if o >= end && Held(b, o, x) {
        var j :| Covers(b, j, o) && b.ranges[j][o - Offset(j, b.vmSeq)] == x;
        assert Covers(b', j, o);
      }
    }
  }

  /** A first range that starts in the future: nothing can be delivered. */
  lemma DeliversNothing(b: Buffer, keys: seq<U32>, lo: int, hi: int)
    requires Ok(b, lo, hi) && Visits(b, keys) && (keys != [] ==> Offset(keys[0], b.vmSeq) > 0)
    ensures Delivers(b, b, []) && Ok(b, 1, Max(1, hi))
  {
    forall k | k in b.ranges ensures Offset(k, b.vmSeq) >= 1 {
      assert k in keys;
      var i :| 0 <= i < |keys| && keys[i] == k;
      assert i > 0 ==> SortKey(keys[0], b.vmSeq, true) < SortKey(k, b.vmSeq, true);
    }
    assert Wrap(b.vmSeq + 0) == b.vmSeq;
    hide Offset, SortKey, Total, Apart, Ascending;
  }

  /** A first range wholly behind the next expected byte changes nothing ahead. */
  lemma DeliversAfterDrop(b: Buffer, b1: Buffer, r: Buffer, end: int, delivered: seq<byte>)
    requires end <= 0 && b1.vmSeq == b.vmSeq && Delivers(b1, r, delivered)
    requires forall o, x :: Held(b1, o, x) <==> o >= end && Held(b, o, x)
    ensures Delivers(b, r, delivered)
  {
    OccupiedMeansHeld(b, |delivered|);
    OccupiedMeansHeld(b1, |delivered|);
    hide Held, Occupied;
  }

  /** Delivering the tail of the first range, then what the rest delivers. */
  lemma DeliversAfterTail(b: Buffer, b1: Buffer, b2: Buffer, r: Buffer, tail: seq<byte>, delivered: seq<byte>)
    requires forall i :: 0 <= i < |tail| ==> Held(b, i, tail[i])
    requires forall o, x :: Held(b1, o, x) <==> o >= |tail| && Held(b, o, x)
    requires Shifted(b1, b2, |tail|) && b2.vmSeq == Wrap(b.vmSeq + |tail|) && Delivers(b2, r, delivered)
    ensures Delivers(b, r, tail + delivered)
  {
    var d := tail + delivered;
    WrapAdd(b.vmSeq + |tail|, |delivered|);
    hide Wrap, Offset;
    OccupiedMeansHeld(b, |d|);
    OccupiedMeansHeld(b2, |delivered|);
    hide Held, Occupied;
    forall i | 0 <= i < |d| ensures Held(b, i, d[i]) {
      if i >= |tail| { assert Held(b2, i - |tail|, delivered[i - |tail|]); assert Held(b1, i, d[i]); }
    }
    forall x ensures !Held(b, |d|, x) {
      assert Held(b2, |d| - |tail|, x) <==> Held(b1, |d|, x);
    }
    forall o, x | o > 0 ensures Held(r, o, x) <==> Held(b, o + |d|, x) {
      assert Held(r, o, x) <==> Held(b2, o + |delivered|, x);
      assert Held(b2, o + |d| - |tail|, x) <==> Held(b1, o + |d|, x);
    }
  }

  /** Draining delivers, in order and maximally, and leaves only what is ahead. */
  lemma {:induction false} DrainDelivers(b: Buffer, keys: seq<U32>, lo: int, hi: int)
    requires Ok(b, lo, hi) && Visits(b, keys)
    ensures var (r, chunks) := Drain(b, keys);
      Delivers(b, r, Concat(chunks)) && Ok(r, 1, Max(1, hi)) && forall c <- chunks :: c != []
    decreases |keys|
  {
    hide Ok, Visits, Delivers, Offset, Wrap, Held;
    FirstVisited(b, keys, lo, hi);
    if keys == [] || Offset(keys[0], b.vmSeq) > 0 {
      DeliversNothing(b, keys, lo, hi);
    } else {
      WithoutFirst(b, keys, lo, hi);
      var k := keys[0];
      var b1 := Without(b, k);
      var end := Offset(k, b.vmSeq) + |b.ranges[k]|;
      if end <= 0 {
        DrainDelivers(b1, keys[1..], end, hi);
        var (r, chunks) := Drain(b1, keys[1..]);
        DeliversAfterDrop(b, b1, r, end, Concat(chunks));
      } else {
        TailHeld(b, k);
        AdvancePast(b1, keys[1..], end, hi);
        var b2 := b1.(vmSeq := Wrap(b1.vmSeq + end));
        DrainDelivers(b2, keys[1..], 0, hi - end);
        var (r, chunks) := Drain(b2, keys[1..]);
        var tail := b.ranges[k][-Offset(k, b.vmSeq)..];
        DeliversAfterTail(b, b1, b2, r, tail, Concat(chunks));
        assert ([tail] + chunks)[1..] == chunks;
        Widen(r, 1, Max(1, hi - end), 1, Max(1, hi)) by { Bounds(b, lo, hi); }
      }
    }
  }

  lemma FirstVisited(b: Buffer, keys: seq<U32>, lo: int, hi: int)
    requires Ok(b, lo, hi) && Visits(b, keys)
    ensures keys != [] ==>
      var o := Offset(keys[0], b.vmSeq);
      && keys[0] in b.ranges && o == Signed(keys[0] - b.vmSeq)
      && (o <= 0 ==> Wrap(b.vmSeq - keys[0]) == -o)
  {
    if keys != [] {
      assert keys[0] in keys;
      KeyOfOffset(keys[0], b.vmSeq);
    }
  }

  /** Once delivery has passed `n`, the ranges left are ready to be visited from there. */
  lemma AdvancePast(b: Buffer, keys: seq<U32>, n: int, hi: int)
    requires Ok(b, n, hi) && Visits(b, keys) && 0 <= n
    ensures var b' := b.(vmSeq := Wrap(b.vmSeq + n)); Ok(b', 0, hi - n) && Visits(b', keys) && Shifted(b, b', n)
  {
    hide Ok, Held, Offset, Visits, Shifted, Inside, Apart;
    Opened(b, n, hi);
    ShiftKeepsOk(b, n, n, hi);
    AdvanceShifts(b, n);
    ShiftVisits(b, keys, n);
  }

  lemma TailHeld(b: Buffer, k: U32)
    requires k in b.ranges && Offset(k, b.vmSeq) <= 0 < Offset(k, b.vmSeq) + |b.ranges[k]|
    ensures var tail := b.ranges[k][-Offset(k, b.vmSeq)..];
      forall i :: 0 <= i < |tail| ==> Held(b, i, tail[i])
  {
    var tail := b.ranges[k][-Offset(k, b.vmSeq)..];
    forall i | 0 <= i < |tail| ensures Held(b, i, tail[i]) { assert Covers(b, k, i); }
  }

  lemma ShiftVisits(b: Buffer, keys: seq<U32>, n: int)
    requires Visits(b, keys) && Shifted(b, b.(vmSeq := Wrap(b.vmSeq + n)), n)
    ensures Visits(b.(vmSeq := Wrap(b.vmSeq + n)), keys)
  {
    var b' := b.(vmSeq := Wrap(b.vmSeq + n));
    forall i, j | 0 <= i < j < |keys| ensures SortKey(keys[i], b'.vmSeq, true) < SortKey(keys[j], b'.vmSeq, true) {
      assert keys[i] in keys && keys[j] in keys;
      assert SortKey(keys[i], b.vmSeq, true) < SortKey(keys[j], b.vmSeq, true);
      assert Offset(keys[i], b'.vmSeq) == Offset(keys[i], b.vmSeq) - n && Offset(keys[j], b'.vmSeq) == Offset(keys[j], b.vmSeq) - n;
    }
    hide Signed, Wrap;
  }

  /** `drainTCPOutOfOrder` writes exactly the held bytes from the next expected
      one up to the first missing one, and every range it leaves lies ahead. */
  lemma DrainIsMaximal(b: Buffer, lo: int, hi: int)
    requires Ok(b, lo, hi)
    ensures var (r, chunks) := DrainOutOfOrder(b);
      Delivers(b, r, Concat(chunks)) && Ok(r, 1, Max(1, hi)) && forall c <- chunks :: c != []
  {
    SortedKeysSorts(b.ranges.Keys, b.vmSeq, true);
    hide Ok, Delivers, Ascending, Drain;
    DrainDelivers(b, SortedKeys(b.ranges.Keys, b.vmSeq, true), lo, hi);
  }
}
