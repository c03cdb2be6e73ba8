/** The sliding-window rate limiter (rate_limiter.js) against a naive limiter
    that remembers every admission: the class answers the same, so no window of
    the configured length ever admits more than the limit. Times and byte counts
    are reals; the clock never runs backwards. */
module RateLimiter {
  import opened Bytes

  datatype Entry = Entry(timestamp: real, bytes: real)

  // ----- the naive limiter: a full history of admissions -----

  /** The bytes admitted at times in (from, to]. */
  function Between(h: seq<Entry>, from: real, to: real): real {
    if h == [] then 0.0
    else Between(h[..|h| - 1], from, to) + Counted(h[|h| - 1], from, to)
  }

  function Counted(e: Entry, from: real, to: real): real { if from < e.timestamp <= to then e.bytes else 0.0 }

  predicate Ordered(h: seq<Entry>) {
    forall i, j :: 0 <= i < j < |h| ==> h[i].timestamp <= h[j].timestamp
  }

  predicate Until(h: seq<Entry>, time: real) { forall e <- h :: e.timestamp <= time }

  predicate Positive(h: seq<Entry>) { forall e <- h :: e.bytes > 0.0 }

  /** Every admission found room, in the window ending at its own time. */
  predicate Admitted(h: seq<Entry>, maxBytes: real, windowMs: real) {
    h == [] ||
    var (rest, e) := (h[..|h| - 1], h[|h| - 1]);
    && Admitted(rest, maxBytes, windowMs)
    && Between(rest, e.timestamp - windowMs, e.timestamp) + e.bytes <= maxBytes
  }

  lemma {:induction false} BetweenAppend(a: seq<Entry>, b: seq<Entry>, from: real, to: real)
    ensures Between(a + b, from, to) == Between(a, from, to) + Between(b, from, to)
    decreases |b|
  {
    if b == [] {
      assert a + b == a;
    } else {
      assert (a + b)[..|a + b| - 1] == a + b[..|b| - 1];
      BetweenAppend(a, b[..|b| - 1], from, to);
    }
  }

  /** A shorter window counts no more. */
  lemma {:induction false} BetweenMonotone(h: seq<Entry>, from: real, later: real, to: real)
    requires Positive(h) && from <= later
    ensures 0.0 <= Between(h, later, to) <= Between(h, from, to)
    decreases |h|
  {
    if h != [] {
      assert h[|h| - 1] in h;
      assert forall e <- h[..|h| - 1] :: e in h;
      BetweenMonotone(h[..|h| - 1], from, later, to);
    }
  }

  /** Past the last admission the window's end makes no difference. */
  lemma {:induction false} BetweenEnd(h: seq<Entry>, from: real, to: real, later: real)
    requires to <= later && forall e <- h :: e.timestamp <= to
    ensures Between(h, from, later) == Between(h, from, to)
    decreases |h|
  {
    if h != [] {
      assert h[|h| - 1] in h;
      assert forall e <- h[..|h| - 1] :: e in h;
      BetweenEnd(h[..|h| - 1], from, to, later);
    }
  }

  /** Whenever a window of the configured length ends, and not only at the times
      of admissions, it holds at most the limit. */
  lemma {:induction false} EveryWindowIsBounded(h: seq<Entry>, maxBytes: real, windowMs: real, end: real)
    requires Ordered(h) && Positive(h) && Admitted(h, maxBytes, windowMs) && windowMs > 0.0 && maxBytes > 0.0
    ensures Between(h, end - windowMs, end) <= maxBytes
    decreases |h|
  {
    if h != [] {
      var rest, e := h[..|h| - 1], h[|h| - 1];
      assert e in h;
      assert forall x <- rest :: x in h;
      if end < e.timestamp {
        EveryWindowIsBounded(rest, maxBytes, windowMs, end);
      } else {
        forall x | x in rest ensures x.timestamp <= e.timestamp {
          var i :| 0 <= i < |rest| && rest[i] == x;
          assert h[i] == x;
        }
        BetweenEnd(rest, end - windowMs, e.timestamp, end);
        BetweenMonotone(rest, e.timestamp - windowMs, end - windowMs, e.timestamp);
      }
    }
  }

  // ----- what merging and dropping entries keep -----

  /** Both lists admit the same amount in every window that starts at or after
      `cutoff`. */
  ghost predicate Agree(a: seq<Entry>, b: seq<Entry>, cutoff: real) {
    forall from: real, to: real :: cutoff <= from ==> Between(a, from, to) == Between(b, from, to)
  }

  /** Adding to the last entry is invisible when the times are equal. */
  lemma MergeIsAppend(entries: seq<Entry>, e: Entry, from: real, to: real)
    requires entries != [] && entries[|entries| - 1].timestamp == e.timestamp
    ensures var last := entries[|entries| - 1];
      Between(entries[|entries| - 1 := last.(bytes := last.bytes + e.bytes)], from, to)
      == Between(entries, from, to) + Counted(e, from, to)
  {
    var last := entries[|entries| - 1];
    var merged := entries[|entries| - 1 := last.(bytes := last.bytes + e.bytes)];
    assert merged[..|merged| - 1] == entries[..|entries| - 1];
  }

  lemma AppendCounts(h: seq<Entry>, e: Entry, from: real, to: real)
    ensures Between(h + [e], from, to) == Between(h, from, to) + Counted(e, from, to)
  {
    assert (h + [e])[..|h|] == h;
  }

  /** Entries at or before the cutoff count in no later window. */
  lemma ExpiredIsInvisible(entries: seq<Entry>, cutoff: real)
    requires entries != [] && entries[0].timestamp <= cutoff
    ensures Agree(entries, entries[1..], cutoff)
  {
    forall from: real, to: real | cutoff <= from ensures Between(entries, from, to) == Between(entries[1..], from, to) {
      assert entries == [entries[0]] + entries[1..];
      BetweenAppend([entries[0]], entries[1..], from, to);
      assert [entries[0]][..0] == [];
      assert Between([entries[0]], from, to) == Counted(entries[0], from, to);
    }
  }

  /** The running total. */
  function Total(entries: seq<Entry>): real {
    if entries == [] then 0.0 else Total(entries[..|entries| - 1]) + entries[|entries| - 1].bytes
  }

  lemma {:induction false} TotalIsWindow(entries: seq<Entry>, from: real, to: real)
    requires forall e <- entries :: from < e.timestamp <= to
    ensures Total(entries) == Between(entries, from, to)
    decreases |entries|
  {
    if entries != [] {
      assert entries[|entries| - 1] in entries;
      assert forall e <- entries[..|entries| - 1] :: e in entries;
      TotalIsWindow(entries[..|entries| - 1], from, to);
    }
  }

  lemma {:induction false} TotalDropsFirst(entries: seq<Entry>)
    requires entries != []
    ensures Total(entries[1..]) == Total(entries) - entries[0].bytes
    decreases |entries|
  {
    if |entries| == 1 {
      assert entries[..0] == [];
    } else {
      var front := entries[..|entries| - 1];
      TotalDropsFirst(front);
      assert entries[1..][..|entries| - 2] == front[1..];
    }
  }

  function Merged(entries: seq<Entry>, e: Entry): seq<Entry>
    requires entries != []
  {
    var last := entries[|entries| - 1];
    entries[|entries| - 1 := last.(bytes := last.bytes + e.bytes)]
  }

  lemma AgreeAt(a: seq<Entry>, b: seq<Entry>, cutoff: real, to: real)
    requires Agree(a, b, cutoff)
    ensures Between(a, cutoff, to) == Between(b, cutoff, to)
  {
    hide Between;
  }

  lemma AgreeTrans(a: seq<Entry>, b: seq<Entry>, c: seq<Entry>, cutoff: real)
    requires Agree(b, a, cutoff) && Agree(b, c, cutoff)
    ensures Agree(a, c, cutoff)
  {
    hide Between;
  }

  /** Merging an admission into the last entry: same windows, same total. */
  lemma MergeKeeps(live: seq<Entry>, h: seq<Entry>, e: Entry, cutoff: real)
    requires Agree(live, h, cutoff) && live != [] && live[|live| - 1].timestamp == e.timestamp
    ensures Agree(Merged(live, e), h + [e], cutoff) && Total(Merged(live, e)) == Total(live) + e.bytes
  {
    forall from: real, to: real | cutoff <= from ensures Between(Merged(live, e), from, to) == Between(h + [e], from, to) {
      MergeIsAppend(live, e, from, to);
      AppendCounts(h, e, from, to);
      assert Between(live, from, to) == Between(h, from, to);
    }
    assert Merged(live, e)[..|live| - 1] == live[..|live| - 1];
    hide Between;
  }

  lemma AppendKeeps(live: seq<Entry>, h: seq<Entry>, e: Entry, cutoff: real)
    requires Agree(live, h, cutoff)
    ensures Agree(live + [e], h + [e], cutoff) && Total(live + [e]) == Total(live) + e.bytes
  {
    forall from: real, to: real | cutoff <= from ensures Between(live + [e], from, to) == Between(h + [e], from, to) {
      AppendCounts(live, e, from, to);
      AppendCounts(h, e, from, to);
      assert Between(live, from, to) == Between(h, from, to);
    }
    assert (live + [e])[..|live|] == live;
    hide Between;
  }

  lemma KeepsOrder(entries: seq<Entry>, e: Entry)
    requires Ordered(entries) && Positive(entries) && Until(entries, e.timestamp) && e.bytes > 0.0
    ensures Ordered(entries + [e]) && Positive(entries + [e]) && Until(entries + [e], e.timestamp)
    ensures entries != [] ==> Ordered(Merged(entries, e)) && Positive(Merged(entries, e)) && Until(Merged(entries, e), e.timestamp)
  {
    if entries != [] {
      var m, last := Merged(entries, e), |entries| - 1;
      assert forall i :: 0 <= i < |entries| ==> m[i].timestamp == entries[i].timestamp;
      assert entries[last] in entries;
      forall x | x in m ensures x.bytes > 0.0 && x.timestamp <= e.timestamp {
        var i :| 0 <= i < |m| && m[i] == x;
        assert entries[i] in entries;
      }
    }
  }

  lemma RememberInHistory(h: seq<Entry>, e: Entry, maxBytes: real, windowMs: real)
    requires Ordered(h) && Positive(h) && Admitted(h, maxBytes, windowMs) && e.bytes > 0.0
    requires Until(h, e.timestamp)
    requires Between(h, e.timestamp - windowMs, e.timestamp) + e.bytes <= maxBytes
    ensures Ordered(h + [e]) && Positive(h + [e]) && Admitted(h + [e], maxBytes, windowMs) && Until(h + [e], e.timestamp)
  {
    hide Between, Ordered, Positive, Until;
    KeepsOrder(h, e);
    assert (h + [e])[..|h|] == h;
  }

  datatype Answer = Yes | No | TypeError

  class SlidingWindowRateLimiter {
    const maxBytes: real
    const windowMs: real
    var entries: seq<Entry>
    var head: nat
    var totalBytes: real

    /** Every admission so far, and the time of the last call. */
    ghost var history: seq<Entry>
    ghost var lastCall: Option<real>

    ghost predicate Valid()
      reads this
    {
      && maxBytes > 0.0 && windowMs > 0.0
      && head <= |entries|
      && Ordered(entries) && Positive(entries) && totalBytes == Total(entries[head..])
      && Ordered(history) && Positive(history) && Admitted(history, maxBytes, windowMs)
      && (lastCall.None? ==> history == [] && entries == [])
      && (lastCall.Some? ==>
            && Until(entries, lastCall.value) && Until(history, lastCall.value)
            && Agree(entries[head..], history, lastCall.value - windowMs))
    }

    /** Few dead entries are kept: fewer than 1024, or fewer than the live ones. */
    predicate Compact()
      reads this
    {
      head <= |entries| && (head == 0 || head < Max(1024, |entries| - head))
    }

    constructor (maxBytes: real, windowMs: real)
      requires maxBytes > 0.0 && windowMs > 0.0
      ensures Valid() && Compact() && history == [] && lastCall.None? && this.maxBytes == maxBytes && this.windowMs == windowMs
    {
      this.maxBytes, this.windowMs := maxBytes, windowMs;
      entries, head, totalBytes := [], 0, 0.0;
      history, lastCall := [], None;
    }

    /** The constructor with its argument checks; `null` where it throws. */
    static method Create(maxBytes: real, windowMs: real) returns (limiter: SlidingWindowRateLimiter?)
      ensures limiter == null <==> maxBytes <= 0.0 || windowMs <= 0.0
      ensures limiter != null ==>
                && fresh(limiter) && limiter.Valid() && limiter.Compact() && limiter.history == [] && limiter.lastCall.None?
                && limiter.maxBytes == maxBytes && limiter.windowMs == windowMs
    {
      if maxBytes <= 0.0 { return null; }
      if windowMs <= 0.0 { return null; }
      limiter := new SlidingWindowRateLimiter(maxBytes, windowMs);
    }

    /** `prune(now)`: afterwards the total is the naive sum over (now - windowMs, now]. */
    method Prune(now: real)
      requires Valid() && (lastCall.Some? ==> lastCall.value <= now)
      modifies this
      ensures Valid() && Compact() && lastCall == Some(now) && history == old(history)
      ensures totalBytes == Between(history, now - windowMs, now)
      ensures head < |entries| || entries == []
      ensures forall e <- entries[head..] :: now - windowMs < e.timestamp <= now
    {
      hide Agree, Total, Between, Admitted, Ordered, Positive;
      var cutoff := now - windowMs;
      AgreeLater(cutoff, now);
      DropExpired(cutoff);
      CompactEntries();
      lastCall := Some(now);
      TotalIsWindow(entries[head..], cutoff, now);
      AgreeAt(entries[head..], history, cutoff, now);
    }

    /** The loop of `prune`. */
    method DropExpired(cutoff: real)
      requires head <= |entries| && Ordered(entries) && totalBytes == Total(entries[head..]) && Agree(entries[head..], history, cutoff)
      modifies this`head, this`totalBytes
      ensures head <= |entries| && totalBytes == Total(entries[head..]) && Agree(entries[head..], history, cutoff)
      ensures forall e <- entries[head..] :: cutoff < e.timestamp
    {
      hide Agree, Total;
      while head < |entries| && entries[head].timestamp <= cutoff
        invariant head <= |entries| && totalBytes == Total(entries[head..]) && Agree(entries[head..], history, cutoff)
      {
        assert entries[head..][0] == entries[head] && entries[head..][1..] == entries[head + 1..];
        TotalDropsFirst(entries[head..]);
        ExpiredIsInvisible(entries[head..], cutoff);
        AgreeTrans(entries[head + 1..], entries[head..], history, cutoff);
        totalBytes := totalBytes - entries[head].bytes;
        head := head + 1;
      }
      forall e | e in entries[head..] ensures cutoff < e.timestamp {
        var i :| 0 <= i < |entries[head..]| && entries[head..][i] == e;
        assert entries[head].timestamp <= entries[head + i].timestamp;
      }
    }

    /** The end of `prune`: dead entries are given back once they are half of many. */
    method CompactEntries()
      requires head <= |entries| && Ordered(entries)
      modifies this`entries, this`head
      ensures Compact() && entries[head..] == old(entries[head..]) && (head < |entries| || entries == [])
      ensures Ordered(entries) && (forall e <- entries :: e in old(entries)) && (old(Positive(entries)) ==> Positive(entries))
    {
      if head == |entries| {
        entries := [];
        head := 0;
      } else if head >= 1024 && head * 2 >= |entries| {
        entries := entries[head..];
        head := 0;
      }
    }

    /** Agreement from some cutoff on is agreement from any later one. */
    lemma AgreeLater(cutoff: real, now: real)
      requires Valid() && (lastCall.Some? ==> lastCall.value <= now) && cutoff == now - windowMs
      ensures Agree(entries[head..], history, cutoff)
    {
      if lastCall.None? { assert entries[head..] == history; }
    }

    /** `tryConsume`: the answer of the naive limiter, for every nondecreasing
        clock; an admission is remembered, a refusal changes no history. */
    method TryConsume(now: real, bytes: real) returns (answer: Answer)
      requires Valid() && (lastCall.Some? ==> lastCall.value <= now)
      modifies this
      ensures Valid()
      ensures answer.TypeError? <==> bytes < 0.0
      ensures bytes >= 0.0 ==> (answer.Yes? <==> Between(old(history), now - windowMs, now) + bytes <= maxBytes)
      ensures history == old(history) + (if answer.Yes? && bytes > 0.0 then [Entry(now, bytes)] else [])
      ensures Compact() || answer.TypeError?
    {
      if bytes < 0.0 { return TypeError; }
      Prune(now);
      if totalBytes + bytes > maxBytes { return No; }
      if bytes > 0.0 { Remember(now, bytes); }
      return Yes;
    }

    /** Bytes accepted at the time of the last entry join it. */
    method AddEntry(now: real, bytes: real)
      requires Compact() && (head < |entries| || entries == []) && bytes > 0.0
      requires Ordered(entries) && Positive(entries) && Until(entries, now) && Agree(entries[head..], history, now - windowMs)
      modifies this`entries
      ensures Compact() && Ordered(entries) && Positive(entries) && Until(entries, now)
      ensures Agree(entries[head..], history + [Entry(now, bytes)], now - windowMs)
      ensures Total(entries[head..]) == old(Total(entries[head..])) + bytes
    {
      hide Agree, Total, Ordered, Positive, Until;
      ghost var e, live := Entry(now, bytes), entries[head..];
      KeepsOrder(entries, e);
      if |entries| > 0 && entries[|entries| - 1].timestamp == now {
        var last := entries[|entries| - 1];
        MergeKeeps(live, history, e, now - windowMs);
        entries := entries[|entries| - 1 := last.(bytes := last.bytes + bytes)];
        assert entries[head..] == Merged(live, e);
      } else {
        AppendKeeps(live, history, e, now - windowMs);
        entries := entries + [Entry(now, bytes)];
        assert entries[head..] == live + [e];
      }
    }

    method Remember(now: real, bytes: real)
      requires Valid() && Compact() && lastCall == Some(now) && bytes > 0.0
      requires Between(history, now - windowMs, now) + bytes <= maxBytes
      requires head < |entries| || entries == []
      modifies this
      ensures Valid() && Compact() && history == old(history) + [Entry(now, bytes)]
    {
      hide Agree, Total, Between, Ordered, Positive, Until, Admitted;
      RememberInHistory(history, Entry(now, bytes), maxBytes, windowMs);
      AddEntry(now, bytes);
      history := history + [Entry(now, bytes)];
      totalBytes := totalBytes + bytes;
    }

    method Usage(now: real) returns (used: real)
      requires Valid() && (lastCall.Some? ==> lastCall.value <= now)
      modifies this
      ensures Valid() && Compact() && history == old(history)
      ensures used == Between(history, now - windowMs, now) <= maxBytes
    {
      Prune(now);
      EveryWindowIsBounded(history, maxBytes, windowMs, now);
      used := totalBytes;
    }
  }
}
