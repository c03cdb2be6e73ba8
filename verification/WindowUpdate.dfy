/** Window updates do not depend on the order of arrival (relay.js:564-574): as
    section 3.10.7.4 of RFC 9293 asks, the window that counts is the one carried
    by the segment with the greatest sequence number and, among those, the
    greatest acknowledgement number. */
module WindowUpdate {
  import opened Bytes
  import opened SequenceNumbers
  import opened SendPath
  import opened SendInvariant

  /** An acceptable ACK: the stream positions its two numbers stand for. */
  datatype Update = Update(at: int, acked: int, window: int)

  /** The two initial sequence numbers. */
  datatype Bases = Bases(vm: int, relay: int)

  predicate Before(a: Update, b: Update) { a.at < b.at || (a.at == b.at && a.acked < b.acked) }

  /** No two segments are 2^31 or more apart, on either number. */
  predicate Close(updates: seq<Update>) {
    forall i, j :: 0 <= i < |updates| && 0 <= j < |updates| ==>
      updates[i].at - updates[j].at < HALF && updates[i].acked - updates[j].acked < HALF
  }

  /** Less than 2^31 apart, on both numbers. */
  predicate Near(a: Update, b: Update) { -HALF < a.at - b.at < HALF && -HALF < a.acked - b.acked < HALF }

  /** Each segment is near the latest of those before it, however far the first
      and the last are apart. */
  ghost predicate Comparable(updates: seq<Update>)
    decreases |updates|
  {
    updates == [] || (
      var front := updates[..|updates| - 1];
      Comparable(front) && forall i: nat :: Latest(front, i) ==> Near(updates[|updates| - 1], front[i]))
  }

  lemma {:induction false} CloseIsComparable(updates: seq<Update>)
    requires Close(updates)
    ensures Comparable(updates)
    decreases |updates|
  {
    if updates != [] {
      var front, last := updates[..|updates| - 1], updates[|updates| - 1];
      CloseIsComparable(front);
      forall i: nat | Latest(front, i) ensures Near(last, front[i]) { assert front[i] == updates[i]; }
    }
  }

  function Apply(bases: Bases, win: Shown, u: Update): Shown {
    NextWindow(win, Wrap(bases.vm + u.at), Wrap(bases.relay + u.acked), u.window)
  }

  function ApplyAll(bases: Bases, win: Shown, updates: seq<Update>): Shown {
    if updates == [] then win
    else Apply(bases, ApplyAll(bases, win, updates[..|updates| - 1]), updates[|updates| - 1])
  }

  /** No other segment is later, and no segment after it is its equal. */
  predicate Latest(updates: seq<Update>, i: nat) {
    && i < |updates|
    && (forall j :: 0 <= j < |updates| ==> !Before(updates[i], updates[j]))
    && (forall j :: i < j < |updates| ==> Before(updates[j], updates[i]))
  }

  /** What the window of `u` being the current one means. */
  function Carried(bases: Bases, u: Update): Shown {
    Shown(u.window, Some((Wrap(bases.vm + u.at), Wrap(bases.relay + u.acked))))
  }

  /** The 32-bit test finds the older of two segments less than 2^31 apart. */
  lemma OlderIsBefore(bases: Bases, u: Update, last: Update)
    requires Near(u, last)
    ensures Apply(bases, Carried(bases, last), u) == if Before(u, last) then Carried(bases, last) else Carried(bases, u)
  {
    SeqLessThanIsLess(bases.vm, u.at, last.at);
    SeqLessThanIsLess(bases.relay, u.acked, last.acked);
    if Wrap(bases.vm + u.at) == Wrap(bases.vm + last.at) { WrapInjective(bases.vm, u.at, last.at); }
    hide Wrap, SeqLessThan;
  }

  /** After any sequence of ACKs the window is the one of the latest segment,
      the last to arrive among equals. */
  lemma {:induction false} WindowOfLatest(bases: Bases, size: int, updates: seq<Update>, i: nat)
    requires Comparable(updates) && Latest(updates, i)
    ensures ApplyAll(bases, Shown(size, None), updates) == Carried(bases, updates[i])
    decreases |updates|
  {
    hide Wrap, Apply, Carried;
    var n := |updates| - 1;
    var front, last := updates[..n], updates[n];
    if n == 0 {
      FirstApplies(bases, size, last);
      assert front == [];
    } else if i == n {
      LatestExists(front);
      var k: nat :| Latest(front, k);
      WindowOfLatest(bases, size, front, k);
      OlderIsBefore(bases, last, front[k]);
      assert front[k] == updates[k];
    } else {
      assert Latest(front, i);
      WindowOfLatest(bases, size, front, i);
      OlderIsBefore(bases, last, updates[i]);
    }
  }

  lemma FirstApplies(bases: Bases, size: int, u: Update)
    ensures Apply(bases, Shown(size, None), u) == Carried(bases, u)
  {
  }

  lemma {:induction false} LatestExists(updates: seq<Update>)
    requires updates != []
    ensures exists i: nat :: Latest(updates, i)
    decreases |updates|
  {
    var n := |updates| - 1;
    var front, last := updates[..n], updates[n];
    if n == 0 {
      assert Latest(updates, 0);
    } else {
      LatestExists(front);
      var k: nat :| Latest(front, k);
      assert front[k] == updates[k];
      assert Latest(updates, if Before(last, front[k]) then k else n);
    }
  }

  /** The segments' numbers are those of the reports. */
  predicate Stands(bases: Bases, updates: seq<Update>, reports: seq<Report>) {
    && |updates| == |reports|
    && forall i :: 0 <= i < |updates| ==>
         reports[i] == Report(Wrap(bases.vm + updates[i].at), Wrap(bases.relay + updates[i].acked), updates[i].window)
  }

  lemma {:induction false} ToldApplies(bases: Bases, start: Shown, updates: seq<Update>, reports: seq<Report>)
    requires Stands(bases, updates, reports)
    ensures Told(start, reports) == ApplyAll(bases, start, updates)
    decreases |reports|
  {
    hide Wrap, NextWindow;
    if reports != [] {
      ToldApplies(bases, start, updates[..|updates| - 1], reports[..|reports| - 1]);
    }
  }

  /** Segments with equal numbers advertise the same window. */
  predicate Unambiguous(updates: seq<Update>) {
    forall i, j ::
      (0 <= i < |updates| && 0 <= j < |updates| && updates[i].at == updates[j].at && updates[i].acked == updates[j].acked)
      ==> updates[i].window == updates[j].window
  }

  /** Any two orders of arrival of the same ACKs leave the same window. */
  lemma OrderIsIrrelevant(bases: Bases, size: int, a: seq<Update>, b: seq<Update>)
    requires multiset(a) == multiset(b) && Close(a) && Unambiguous(a)
    ensures ApplyAll(bases, Shown(size, None), a) == ApplyAll(bases, Shown(size, None), b)
  {
    hide ApplyAll, Carried;
    SameMembers(a, b);
    if a != [] {
      LatestExists(a);
      var i: nat :| Latest(a, i);
      LatestExists(b);
      var j: nat :| Latest(b, j);
      assert a[i] in multiset(b) && b[j] in multiset(a);
      var i': nat :| i' < |b| && b[i'] == a[i];
      var j': nat :| j' < |a| && a[j'] == b[j];
      assert !Before(a[i], a[j']) && !Before(b[j], b[i']);
      assert Close(b) by { CloseMembers(a, b); }
      CloseIsComparable(a);
      CloseIsComparable(b);
      WindowOfLatest(bases, size, a, i);
      WindowOfLatest(bases, size, b, j);
      assert a[i] == b[j];
    } else {
      assert a == b;
    }
  }

  lemma SameMembers(a: seq<Update>, b: seq<Update>)
    requires multiset(a) == multiset(b)
    ensures forall u :: u in a <==> u in b
    ensures a == [] <==> b == []
  {
    forall u ensures u in a <==> u in b {
      assert u in multiset(a) <==> u in a;
      assert u in multiset(b) <==> u in b;
    }
    if a != [] { assert a[0] in b; }
    if b != [] { assert b[0] in a; }
  }

  lemma CloseMembers(a: seq<Update>, b: seq<Update>)
    requires Close(a) && forall u :: u in b ==> u in a
    ensures Close(b)
  {
    forall i, j | 0 <= i < |b| && 0 <= j < |b| ensures b[i].at - b[j].at < HALF && b[i].acked - b[j].acked < HALF {
      assert b[i] in b && b[j] in b;
      var i' :| 0 <= i' < |a| && a[i'] == b[i];
      var j' :| 0 <= j' < |a| && a[j'] == b[j];
    }
  }
}
