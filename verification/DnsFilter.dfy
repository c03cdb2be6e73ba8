/** Removing IPv6 answers from a DNS response (relay.js:2125-2235), and the proof
    that on the encoding of a response it removes exactly the AAAA records. The
    message format is that of section 4.1 of RFC 1035. */
module DnsFilter {
  import opened Bytes
  import opened Checksum

  const AAAA := 28

  /** `Buffer.slice`, which clamps its bounds. */
  function Slice(p: seq<byte>, from: nat, to: nat): seq<byte> {
    if from <= to && from <= |p| then p[from..Min(to, |p|)] else []
  }

  // ----- what the function computes -----

  /** Where the loop over a question's labels stops: at the zero, past a
      pointer, or at or past the end. */
  function QuestionNameEnd(p: seq<byte>, o: nat): nat
    decreases |p| - o
  {
    if o >= |p| || p[o] == 0 then o
    else if p[o] >= 0xC0 then o + 2
    else QuestionNameEnd(p, o + p[o] + 1)
  }

  function AfterQuestion(p: seq<byte>, o: nat): nat {
    var e := QuestionNameEnd(p, o);
    (if e < |p| && p[e] == 0 then e + 1 else e) + 4
  }

  function AfterQuestions(p: seq<byte>, o: nat, n: nat): nat
    decreases n
  {
    if n == 0 then o else AfterQuestions(p, AfterQuestion(p, o), n - 1)
  }

  function AnswerNameEnd(p: seq<byte>, o: nat): nat
    decreases |p| - o
  {
    if o >= |p| then o
    else if p[o] == 0 then o + 1
    else if p[o] >= 0xC0 then o + 2
    else AnswerNameEnd(p, o + p[o] + 1)
  }

  /** The answers kept, and where reading stopped. */
  function ScanAnswers(p: seq<byte>, o: nat, n: nat): (seq<seq<byte>>, nat)
    decreases n
  {
    if n == 0 || o >= |p| then ([], o)
    else
      var e := AnswerNameEnd(p, o);
      if e + 10 > |p| then ([], e)
      else
        var end := e + 10 + ReadUInt16BE(p, e + 8);
        if end > |p| then ([], e)
        else
          var (kept, stop) := ScanAnswers(p, end, n - 1);
          (if ReadUInt16BE(p, e) != AAAA then [Slice(p, o, end)] + kept else kept, stop)
  }

  function WithAnswerCount(header: seq<byte>, n: u16): seq<byte>
    requires |header| == 12
  {
    Stored(header, 6, n)
  }

  function Filter(p: seq<byte>): seq<byte> {
    if |p| < 12 then p
    else
      var ancount := ReadUInt16BE(p, 6);
      var offset := AfterQuestions(p, 12, ReadUInt16BE(p, 4));
      var (kept, stop) := ScanAnswers(p, offset, ancount);
      if ancount == 0 || kept == [] || |kept| >= ancount then p
      else WithAnswerCount(p[..12], |kept|) + Slice(p, 12, offset) + Concat(kept) + Slice(p, stop, |p|)
  }

  // ----- the function itself -----

  method SkipQuestions(p: seq<byte>, count: nat) returns (offset: nat)
    ensures offset == AfterQuestions(p, 12, count)
  {
    offset := 12;
    var i := 0;
    while i < count
      invariant 0 <= i <= count
      invariant AfterQuestions(p, offset, count - i) == AfterQuestions(p, 12, count)
    {
      ghost var start := offset;
      var pointer := false;
      while !pointer && offset < |p| && p[offset] != 0
        invariant if pointer then offset == QuestionNameEnd(p, start) else QuestionNameEnd(p, offset) == QuestionNameEnd(p, start)
        decreases !pointer, |p| - offset
      {
        var len := p[offset];
        if len >= 0xC0 {
          offset := offset + 2;
          pointer := true;
        } else {
          offset := offset + len + 1;
        }
      }
      if offset < |p| && p[offset] == 0 { offset := offset + 1; }
      offset := offset + 4;
      i := i + 1;
    }
  }

  method SkipAnswerName(p: seq<byte>, from: nat) returns (offset: nat)
    ensures offset == AnswerNameEnd(p, from)
  {
    offset := from;
    while offset < |p|
      invariant AnswerNameEnd(p, offset) == AnswerNameEnd(p, from)
      decreases |p| - offset
    {
      var len := p[offset];
      if len == 0 { return offset + 1; }
      if len >= 0xC0 { return offset + 2; }
      offset := offset + len + 1;
    }
  }

  method FilterAnswers(p: seq<byte>, from: nat, ancount: nat) returns (keptAnswers: seq<seq<byte>>, offset: nat)
    ensures (keptAnswers, offset) == ScanAnswers(p, from, ancount)
  {
    hide AnswerNameEnd, Slice, ReadUInt16BE;
    keptAnswers, offset := [], from;
    var i := 0;
    while i < ancount && offset < |p|
      invariant 0 <= i <= ancount
      invariant keptAnswers + ScanAnswers(p, offset, ancount - i).0 == ScanAnswers(p, from, ancount).0
      invariant ScanAnswers(p, offset, ancount - i).1 == ScanAnswers(p, from, ancount).1
    {
      assert keptAnswers + [] == keptAnswers;
      var recordStart := offset;
      offset := SkipAnswerName(p, offset);
      if offset + 10 > |p| { return; }
      var typ, rdlength := ReadUInt16BE(p, offset), ReadUInt16BE(p, offset + 8);
      var recordEnd := offset + 10 + rdlength;
      if recordEnd > |p| { return; }
      if typ != AAAA {
        ConcatAssociative(keptAnswers, [Slice(p, recordStart, recordEnd)], ScanAnswers(p, recordEnd, ancount - i - 1).0);
        keptAnswers := keptAnswers + [Slice(p, recordStart, recordEnd)];
      }
      offset := recordEnd;
      i := i + 1;
    }
    assert keptAnswers + [] == keptAnswers;
  }

  method FilterDNSResponse(p: seq<byte>) returns (r: seq<byte>)
    ensures r == Filter(p)
  {
    if |p| < 12 { return p; }
    var qdcount, ancount := ReadUInt16BE(p, 4), ReadUInt16BE(p, 6);
    if ancount == 0 { return p; }
    var offset := SkipQuestions(p, qdcount);
    var questionSection := Slice(p, 12, offset);
    var keptAnswers, stop := FilterAnswers(p, offset, ancount);
    if |keptAnswers| == 0 { return p; }
    if |keptAnswers| >= ancount { return p; }
    r := WithAnswerCount(p[..12], |keptAnswers|) + questionSection + Concat(keptAnswers) + Slice(p, stop, |p|);
  }

  // ----- the structure of a response -----

  type Label = l: seq<byte> | 1 <= |l| <= 63 witness [0]

  /** Labels, then the root or a compression pointer. */
  datatype Name = Rooted(labels: seq<Label>) | Pointing(labels: seq<Label>, high: byte, low: byte)
  {
    predicate Valid() { Pointing? ==> high >= 0xC0 }
  }

  datatype Question = Question(name: Name, qtype: u16, qclass: u16)
  {
    /** The questions the filter passes over correctly: after a pointer it takes
        a zero high byte of the type for the end of the name. */
    predicate Readable() { name.Pointing? ==> qtype / 0x100 != 0 }
  }

  datatype Record = Record(name: Name, rtype: u16, classAndTtl: seq<byte>, rdata: seq<byte>)
  {
    predicate Valid() { name.Valid() && |classAndTtl| == 6 && |rdata| <= 0xffff }
  }

  /** `head` is the identifier and the flags; `counts` the authority and
      additional counts; `rest` those two sections. */
  datatype Response = Response(head: seq<byte>, counts: seq<byte>, questions: seq<Question>, answers: seq<Record>, rest: seq<byte>)
  {
    predicate Valid() {
      && |head| == 4 && |counts| == 4 && |questions| <= 0xffff && |answers| <= 0xffff
      && (forall q <- questions :: q.name.Valid())
      && forall a <- answers :: a.Valid()
    }

    predicate Readable() { forall q <- questions :: q.Readable() }
  }

  function EncodeLabels(labels: seq<Label>): seq<byte> {
    if labels == [] then [] else [|labels[0]|] + labels[0] + EncodeLabels(labels[1..])
  }

  function EncodeName(n: Name): seq<byte> {
    match n
    case Rooted(labels) => EncodeLabels(labels) + [0]
    case Pointing(labels, high, low) => EncodeLabels(labels) + [high, low]
  }

  function EncodeQuestion(q: Question): seq<byte> {
    EncodeName(q.name) + BigEndian(q.qtype) + BigEndian(q.qclass)
  }

  function EncodeRecord(a: Record): seq<byte>
    requires a.Valid()
  {
    EncodeName(a.name) + BigEndian(a.rtype) + a.classAndTtl + BigEndian(|a.rdata|) + a.rdata
  }

  function EncodeQuestions(qs: seq<Question>): seq<byte> {
    if qs == [] then [] else EncodeQuestion(qs[0]) + EncodeQuestions(qs[1..])
  }

  function EncodeRecords(records: seq<Record>): seq<seq<byte>>
    requires forall a <- records :: a.Valid()
  {
    if records == [] then [] else [EncodeRecord(records[0])] + EncodeRecords(records[1..])
  }

  function EncodeHeader(r: Response): (h: seq<byte>)
    requires r.Valid()
    ensures |h| == 12
  {
    r.head + BigEndian(|r.questions|) + BigEndian(|r.answers|) + r.counts
  }

  function Encode(r: Response): seq<byte>
    requires r.Valid()
  {
    EncodeHeader(r) + EncodeQuestions(r.questions) + Concat(EncodeRecords(r.answers)) + r.rest
  }

  /** The answers that are not AAAA records, in order. */
  function Kept(answers: seq<Record>): (kept: seq<Record>)
    ensures forall a <- kept :: a in answers && a.rtype != AAAA
    ensures |kept| <= |answers|
  {
    if answers == [] then []
    else if answers[0].rtype != AAAA then [answers[0]] + Kept(answers[1..])
    else Kept(answers[1..])
  }

  // ----- reading an encoding back -----

  /** `s` stands at offset `o` of `p`. */
  predicate At(p: seq<byte>, o: nat, s: seq<byte>) { o + |s| <= |p| && p[o..o + |s|] == s }

  lemma AtSplits(p: seq<byte>, o: nat, a: seq<byte>, b: seq<byte>)
    requires At(p, o, a + b)
    ensures At(p, o, a) && At(p, o + |a|, b)
  {
    assert p[o..o + |a + b|][..|a|] == p[o..o + |a|];
    assert p[o..o + |a + b|][|a|..] == p[o + |a|..o + |a| + |b|];
    assert (a + b)[..|a|] == a && (a + b)[|a|..] == b;
  }

  lemma AtIndex(p: seq<byte>, o: nat, s: seq<byte>, i: nat)
    requires At(p, o, s) && i < |s|
    ensures p[o + i] == s[i]
  {
    assert p[o..o + |s|][i] == p[o + i];
  }

  /** Both loops over labels pass over encoded labels. */
  lemma {:induction false} LabelsAreSkipped(p: seq<byte>, o: nat, labels: seq<Label>)
    requires At(p, o, EncodeLabels(labels))
    ensures QuestionNameEnd(p, o) == QuestionNameEnd(p, o + |EncodeLabels(labels)|)
    ensures AnswerNameEnd(p, o) == AnswerNameEnd(p, o + |EncodeLabels(labels)|)
    decreases |labels|
  {
    if labels != [] {
      var first: Label := labels[0];
      var head: seq<byte> := [|first|] + first;
      AtSplits(p, o, head, EncodeLabels(labels[1..]));
      AtIndex(p, o, head, 0);
      LabelsAreSkipped(p, o + |head|, labels[1..]);
    }
  }

  function NameTail(n: Name): seq<byte> { if n.Rooted? then [0] else [n.high, n.low] }

  lemma NameSplits(n: Name)
    ensures EncodeName(n) == EncodeLabels(n.labels) + NameTail(n)
  {
  }

  /** Where the loop over a question's labels stops: at the zero, or past the pointer. */
  lemma NameIsPassed(p: seq<byte>, o: nat, n: Name)
    requires n.Valid() && At(p, o, EncodeLabels(n.labels)) && At(p, o + |EncodeLabels(n.labels)|, NameTail(n))
    ensures QuestionNameEnd(p, o) == o + |EncodeName(n)| - (if n.Rooted? then 1 else 0)
  {
    NameSplits(n);
    LabelsAreSkipped(p, o, n.labels);
    AtIndex(p, o + |EncodeLabels(n.labels)|, NameTail(n), 0);
    hide EncodeLabels, EncodeName;
  }

  /** A question is passed over correctly exactly when it is readable; any other
      is passed over one byte too far. */
  lemma QuestionIsSkipped(p: seq<byte>, o: nat, q: Question)
    requires At(p, o, EncodeQuestion(q)) && q.name.Valid()
    ensures AfterQuestion(p, o) == o + |EncodeQuestion(q)| + (if q.Readable() then 0 else 1)
  {
    hide EncodeLabels, EncodeName, QuestionNameEnd;
    var e, tail, fields := EncodeLabels(q.name.labels), NameTail(q.name), BigEndian(q.qtype) + BigEndian(q.qclass);
    NameSplits(q.name);
    assert EncodeQuestion(q) == e + (tail + fields);
    AtSplits(p, o, e, tail + fields);
    AtSplits(p, o + |e|, tail, fields);
    AtIndex(p, o + |e|, tail, 0);
    AtIndex(p, o + |e| + |tail|, fields, 0);
    NameIsPassed(p, o, q.name);
    hide At;
  }

  /** As long as the questions before the last are readable, the answers are
      looked for in the right place if and only if the last one is, too. */
  lemma {:induction false} QuestionsAreSkipped(p: seq<byte>, o: nat, qs: seq<Question>)
    requires At(p, o, EncodeQuestions(qs)) && forall q <- qs :: q.name.Valid()
    requires forall i :: 0 <= i < |qs| - 1 ==> qs[i].Readable()
    ensures AfterQuestions(p, o, |qs|) ==
      o + |EncodeQuestions(qs)| + (if qs == [] || qs[|qs| - 1].Readable() then 0 else 1)
    decreases |qs|
  {
    hide EncodeQuestion, AfterQuestion, At;
    if qs != [] {
      AtSplits(p, o, EncodeQuestion(qs[0]), EncodeQuestions(qs[1..]));
      QuestionIsSkipped(p, o, qs[0]);
      if |qs| > 1 { QuestionsAreSkipped(p, o + |EncodeQuestion(qs[0])|, qs[1..]); }
    }
  }

  lemma NameIsSkipped(p: seq<byte>, o: nat, n: Name)
    requires At(p, o, EncodeName(n)) && n.Valid()
    ensures AnswerNameEnd(p, o) == o + |EncodeName(n)|
  {
    var e, tail := EncodeLabels(n.labels), NameTail(n);
    NameSplits(n);
    AtSplits(p, o, e, tail);
    AtIndex(p, o + |e|, tail, 0);
    LabelsAreSkipped(p, o, n.labels);
  }

  /** The fixed fields of a record are read where they were written. */
  lemma RecordIsRead(p: seq<byte>, o: nat, a: Record)
    requires a.Valid() && At(p, o, EncodeRecord(a))
    ensures var e := AnswerNameEnd(p, o);
      && e + 10 <= |p| && ReadUInt16BE(p, e) == a.rtype && ReadUInt16BE(p, e + 8) == |a.rdata|
      && e + 10 + |a.rdata| == o + |EncodeRecord(a)| <= |p|
      && Slice(p, o, o + |EncodeRecord(a)|) == EncodeRecord(a)
  {
    hide EncodeName, AnswerNameEnd;
    var name, fixed := EncodeName(a.name), FixedFields(a);
    assert EncodeRecord(a) == name + (fixed + a.rdata);
    AtSplits(p, o, name, fixed + a.rdata);
    NameIsSkipped(p, o, a.name);
    AtSplits(p, o + |name|, fixed, a.rdata);
    FieldsAreRead(p, o + |name|, a);
    hide ReadUInt16BE, FixedFields;
  }

  /** The ten bytes between a record's name and its data. */
  function FixedFields(a: Record): (f: seq<byte>)
    requires a.Valid()
    ensures |f| == 10
  {
    BigEndian(a.rtype) + a.classAndTtl + BigEndian(|a.rdata|)
  }

  lemma FieldsAreRead(p: seq<byte>, e: nat, a: Record)
    requires a.Valid() && At(p, e, FixedFields(a))
    ensures ReadUInt16BE(p, e) == a.rtype && ReadUInt16BE(p, e + 8) == |a.rdata|
  {
    AtIndex(p, e, FixedFields(a), 0);
    AtIndex(p, e, FixedFields(a), 1);
    AtIndex(p, e, FixedFields(a), 8);
    AtIndex(p, e, FixedFields(a), 9);
    hide At;
  }

  lemma RecordIsScanned(p: seq<byte>, o: nat, n: nat, a: Record)
    requires a.Valid() && At(p, o, EncodeRecord(a)) && n > 0
    ensures var (kept, stop) := ScanAnswers(p, o + |EncodeRecord(a)|, n - 1);
      ScanAnswers(p, o, n) == (if a.rtype != AAAA then [EncodeRecord(a)] + kept else kept, stop)
  {
    hide EncodeRecord, AnswerNameEnd, ReadUInt16BE, Slice;
    RecordIsLong(a);
    RecordIsRead(p, o, a);
  }

  lemma {:induction false} AnswersAreScanned(p: seq<byte>, o: nat, answers: seq<Record>)
    requires (forall a <- answers :: a.Valid()) && At(p, o, Concat(EncodeRecords(answers)))
    ensures ScanAnswers(p, o, |answers|) == (EncodeRecords(Kept(answers)), o + |Concat(EncodeRecords(answers))|)
    decreases |answers|
  {
    hide ScanAnswers, EncodeRecord, EncodeRecords, Concat, At, Record.Valid;
    EncodedAnswers(answers);
    if answers == [] {
      NothingScanned(p, o);
    } else {
      var a, others := answers[0], answers[1..];
      AtSplits(p, o, EncodeRecord(a), Concat(EncodeRecords(others)));
      RecordIsScanned(p, o, |answers|, a);
      AnswersAreScanned(p, o + |EncodeRecord(a)|, others);
      if a.rtype != AAAA { KeptEncoded(a, Kept(others)); }
    }
  }

  lemma NothingScanned(p: seq<byte>, o: nat)
    ensures ScanAnswers(p, o, 0) == ([], o) && EncodeRecords([]) == []
  {
  }

  lemma EncodedAnswers(answers: seq<Record>)
    requires forall a <- answers :: a.Valid()
    ensures Concat(EncodeRecords(answers)) ==
      if answers == [] then [] else EncodeRecord(answers[0]) + Concat(EncodeRecords(answers[1..]))
  {
    hide EncodeRecord;
    if answers != [] { assert EncodeRecords(answers)[1..] == EncodeRecords(answers[1..]); }
  }

  lemma RecordIsLong(a: Record)
    requires a.Valid()
    ensures |EncodeRecord(a)| >= 10
  {
    hide EncodeName;
  }

  lemma KeptEncoded(a: Record, kept: seq<Record>)
    requires a.Valid() && forall k <- kept :: k.Valid()
    ensures EncodeRecords([a] + kept) == [EncodeRecord(a)] + EncodeRecords(kept)
  {
    assert ([a] + kept)[1..] == kept;
    hide EncodeRecord;
  }

  // ----- the theorems -----

  /** What the filter is for, on structured responses. */
  function Filtered(r: Response): Response {
    if Kept(r.answers) == [] then r else r.(answers := Kept(r.answers))
  }

  lemma EncodingIsRead(r: Response)
    requires r.Valid()
    ensures var p := Encode(r);
      var q := 12 + |EncodeQuestions(r.questions)|;
      && |p| >= 12 && p[..12] == EncodeHeader(r)
      && ReadUInt16BE(p, 4) == |r.questions| && ReadUInt16BE(p, 6) == |r.answers|
      && At(p, 12, EncodeQuestions(r.questions)) && At(p, q, Concat(EncodeRecords(r.answers)))
      && At(p, q + |Concat(EncodeRecords(r.answers))|, r.rest)
      && |p| == q + |Concat(EncodeRecords(r.answers))| + |r.rest|
  {
    hide EncodeQuestions, EncodeRecords, Concat;
    var p := Encode(r);
    var h, qs, ans := EncodeHeader(r), EncodeQuestions(r.questions), Concat(EncodeRecords(r.answers));
    assert p == h + (qs + (ans + r.rest));
    assert p[0..|p|] == p;
    AtSplits(p, 0, h, qs + (ans + r.rest));
    AtSplits(p, 12, qs, ans + r.rest);
    AtSplits(p, 12 + |qs|, ans, r.rest);
    assert p[4] == h[4] && p[5] == h[5] && p[6] == h[6] && p[7] == h[7];
  }

  /** On the encoding of a response with readable questions, or without answers,
      the filter yields the encoding with exactly the AAAA answers removed and the
      count corrected; a response without another answer, or without an AAAA one,
      is returned as it is. */
  lemma FilterRemovesExactlyAAAA(r: Response)
    requires r.Valid() && (r.Readable() || r.answers == [])
    ensures Filtered(r).Valid() && Filter(Encode(r)) == Encode(Filtered(r))
  {
    hide EncodeQuestions, Concat, AfterQuestions, ScanAnswers, EncodeHeader, ReadUInt16BE, EncodeRecords, Kept;
    var p := Encode(r);
    EncodingIsRead(r);
    KeepsAll(r.answers);
    if r.answers == [] { return; }
    QuestionsAreSkipped(p, 12, r.questions);
    AnswersAreScanned(p, 12 + |EncodeQuestions(r.questions)|, r.answers);
    EncodedCount(Kept(r.answers));
    var kept := Kept(r.answers);
    if kept != [] && |kept| < |r.answers| { HeaderCount(r, kept); }
  }

  lemma {:induction false} EncodedCount(records: seq<Record>)
    requires forall a <- records :: a.Valid()
    ensures |EncodeRecords(records)| == |records|
  {
    if records != [] { EncodedCount(records[1..]); }
  }

  /** Nothing is removed exactly when no answer is an AAAA record. */
  lemma {:induction false} KeepsAll(answers: seq<Record>)
    ensures |Kept(answers)| == |answers| <==> forall a <- answers :: a.rtype != AAAA
    ensures |Kept(answers)| == |answers| ==> Kept(answers) == answers
  {
    if answers != [] {
      KeepsAll(answers[1..]);
      assert forall a <- answers :: a == answers[0] || a in answers[1..];
    }
  }

  lemma HeaderCount(r: Response, kept: seq<Record>)
    requires r.Valid() && |kept| <= |r.answers| && forall a <- kept :: a.Valid()
    ensures WithAnswerCount(EncodeHeader(r), |kept|) == EncodeHeader(r.(answers := kept))
  {
  }

  /** Filtering twice is filtering once. */
  lemma FilterIsIdempotent(r: Response)
    requires r.Valid() && (r.Readable() || r.answers == [])
    ensures Filter(Filter(Encode(r))) == Filter(Encode(r))
  {
    hide Filter, Encode, Response.Valid;
    FilterRemovesExactlyAAAA(r);
    FilterRemovesExactlyAAAA(Filtered(r));
    KeptAgain(r.answers);
  }

  lemma {:induction false} KeptAgain(answers: seq<Record>)
    ensures Kept(Kept(answers)) == Kept(answers)
  {
    if answers != [] {
      KeptAgain(answers[1..]);
      if answers[0].rtype != AAAA { assert ([answers[0]] + Kept(answers[1..]))[1..] == Kept(answers[1..]); }
    }
  }

  // ----- compressed question names -----

  /** An ordinary response: the IPv4 and the IPv6 address of a name, the second
      question pointing back to the first. */
  function TwoQuestions(): Response {
    var back := Pointing([], 0xC0, 12);
    var name: Label := [97];
    Response([0, 0, 0x81, 0x80], [0, 0, 0, 0],
             [Question(Rooted([name]), 1, 1), Question(back, AAAA, 1)],
             [Record(back, 1, [0, 1, 0, 0, 0, 60], [10, 0, 0, 1]),
              Record(back, AAAA, [0, 1, 0, 0, 0, 60], [0, 1, 2, 3, 4, 5, 6, 7, 8, 9, 10, 11, 12, 13, 14, 15])],
             [])
  }

  const FirstQuestion: seq<byte> := [1, 97, 0, 0, 1, 0, 1]
  const SecondQuestion: seq<byte> := [0xC0, 12, 0, 28, 0, 1]
  const FirstAnswer: seq<byte> := [0xC0, 12, 0, 1, 0, 1, 0, 0, 0, 60, 0, 4, 10, 0, 0, 1]
  const SecondAnswer: seq<byte> :=
    [0xC0, 12, 0, 28, 0, 1, 0, 0, 0, 60, 0, 16, 0, 1, 2, 3, 4, 5, 6, 7, 8, 9, 10, 11, 12, 13, 14, 15]

  lemma QuestionsEncoded()
    ensures EncodeQuestions(TwoQuestions().questions) == FirstQuestion + SecondQuestion
  {
    var qs := TwoQuestions().questions;
    var name: Label := [97];
    assert EncodeLabels([name]) == [1, 97] by { assert EncodeLabels([name][1..]) == []; }
    assert EncodeQuestion(qs[0]) == FirstQuestion;
    assert EncodeQuestion(qs[1]) == SecondQuestion;
    assert qs[1..][1..] == [];
    assert EncodeQuestions(qs[1..]) == SecondQuestion;
    hide EncodeQuestion, EncodeName;
  }

  lemma FirstAnswerEncoded()
    ensures var a := TwoQuestions().answers[0]; a.Valid() && EncodeRecord(a) == FirstAnswer
  {
  }

  lemma SecondAnswerEncoded()
    ensures var a := TwoQuestions().answers[1]; a.Valid() && EncodeRecord(a) == SecondAnswer
  {
  }

  lemma AnswersEncoded()
    ensures var r := TwoQuestions(); r.Valid() && Concat(EncodeRecords(r.answers)) == FirstAnswer + SecondAnswer
    ensures var r := TwoQuestions(); Concat(EncodeRecords(r.answers[..1])) == FirstAnswer
  {
    hide EncodeRecord, EncodeRecords, Concat, EncodeName, Record.Valid;
    FirstAnswerEncoded();
    SecondAnswerEncoded();
    TwoRecords(TwoQuestions().answers);
    hide FirstAnswer, SecondAnswer;
  }

  lemma TwoRecords(answers: seq<Record>)
    requires |answers| == 2 && answers[0].Valid() && answers[1].Valid()
    ensures Concat(EncodeRecords(answers)) == EncodeRecord(answers[0]) + EncodeRecord(answers[1])
    ensures Concat(EncodeRecords(answers[..1])) == EncodeRecord(answers[0])
  {
    hide EncodeRecord, Concat, Record.Valid;
    ConcatOne(EncodeRecord(answers[0]));
    ConcatOne(EncodeRecord(answers[1]));
    assert answers[..1][1..] == answers[1..][1..] == [];
    assert EncodeRecords(answers[..1]) == [EncodeRecord(answers[0])];
    assert EncodeRecords(answers[1..]) == [EncodeRecord(answers[1])];
    EncodedAnswers(answers);
  }

  lemma MisreadFirst(p: seq<byte>)
    requires At(p, 25, FirstAnswer)
    ensures |p| > 40 && p[26] == 12 && p[39] == 0 && p[40] == 1
  {
    AtIndex(p, 25, FirstAnswer, 1);
    AtIndex(p, 25, FirstAnswer, 14);
    AtIndex(p, 25, FirstAnswer, 15);
    hide At;
  }

  lemma MisreadSecond(p: seq<byte>)
    requires At(p, 41, SecondAnswer)
    ensures |p| > 50 && p[41] == 0xC0 && p[48] == 0 && p[49] == 0 && p[50] == 60
  {
    AtIndex(p, 41, SecondAnswer, 0);
    AtIndex(p, 41, SecondAnswer, 7);
    AtIndex(p, 41, SecondAnswer, 8);
    AtIndex(p, 41, SecondAnswer, 9);
    hide At;
  }

  /** The answers are looked for one byte too far, and what is found there is no
      address record: the AAAA record and part of the other are lost. */
  lemma TwoQuestionsScanned()
    ensures var p := Encode(TwoQuestions());
      |p| == 69 && AfterQuestions(p, 12, 2) == 26 && ScanAnswers(p, 26, 2) == ([Slice(p, 26, 50)], 111)
  {
    hide Encode, EncodeQuestions, EncodeRecords, Concat, At, AfterQuestions, Slice;
    var r := TwoQuestions();
    var p := Encode(r);
    QuestionsEncoded();
    AnswersEncoded();
    EncodingIsRead(r);
    QuestionsAreSkipped(p, 12, r.questions);
    AtSplits(p, 25, FirstAnswer, SecondAnswer);
    MisreadFirst(p);
    MisreadSecond(p);
    OneTooFar(p);
  }

  lemma OneTooFar(p: seq<byte>)
    requires |p| == 69 && p[26] == 12 && p[39] == 0 && p[40] == 1 && p[41] == 0xC0 && p[48] == 0 && p[49] == 0 && p[50] == 60
    ensures ScanAnswers(p, 26, 2) == ([Slice(p, 26, 50)], 111)
  {
    hide AnswerNameEnd, Slice, ReadUInt16BE, ScanAnswers;
    MisreadNames(p);
    MisreadFields(p);
    ScanNothing(p, 50, 1);
    ScanOne(p, 26, 2, 40, 50);
    assert [Slice(p, 26, 50)] + ScanAnswers(p, 50, 1).0 == [Slice(p, 26, 50)];
  }

  lemma MisreadNames(p: seq<byte>)
    requires |p| == 69 && p[26] == 12 && p[39] == 0 && p[50] == 60
    ensures AnswerNameEnd(p, 26) == 40 && AnswerNameEnd(p, 50) == 111
  {
    assert AnswerNameEnd(p, 39) == 40;
    assert AnswerNameEnd(p, 111) == 111;
  }

  lemma MisreadFields(p: seq<byte>)
    requires |p| == 69 && p[40] == 1 && p[41] == 0xC0 && p[48] == 0 && p[49] == 0
    ensures ReadUInt16BE(p, 40) == 448 && ReadUInt16BE(p, 48) == 0
  {
  }

  lemma ScanOne(p: seq<byte>, o: nat, n: nat, e: nat, end: nat)
    requires n > 0 && o < |p| && AnswerNameEnd(p, o) == e && e + 10 <= end <= |p|
    requires end == e + 10 + ReadUInt16BE(p, e + 8) && ReadUInt16BE(p, e) != AAAA
    ensures ScanAnswers(p, o, n) == ([Slice(p, o, end)] + ScanAnswers(p, end, n - 1).0, ScanAnswers(p, end, n - 1).1)
  {
    hide AnswerNameEnd, Slice, ReadUInt16BE;
  }

  lemma ScanNothing(p: seq<byte>, o: nat, n: nat)
    requires n > 0 && o < |p| && AnswerNameEnd(p, o) + 10 > |p|
    ensures ScanAnswers(p, o, n) == ([], AnswerNameEnd(p, o))
  {
    hide AnswerNameEnd, Slice, ReadUInt16BE;
  }

  /** On that well-formed response the filter returns a message that is not the
      encoding of the filtered response. */
  lemma CompressedQuestionMisread()
    ensures var r := TwoQuestions();
      && r.Valid() && !r.Readable()
      && |Filter(Encode(r))| == 50 && |Encode(Filtered(r))| == 41
      && Filter(Encode(r)) != Encode(Filtered(r))
  {
    hide Concat, AfterQuestions, ScanAnswers, Encode, EncodeHeader, EncodeRecords, Kept, Slice;
    var r := TwoQuestions();
    var p := Encode(r);
    TwoQuestionsScanned();
    EncodingIsRead(r);
    OneSlice(p);
    FilteredLength();
    assert !r.questions[1].Readable();
  }

  lemma OneSlice(p: seq<byte>)
    requires |p| == 69
    ensures |Concat([Slice(p, 26, 50)])| == 24 && Slice(p, 111, 69) == [] && |Slice(p, 12, 26)| == 14
  {
    assert Concat([Slice(p, 26, 50)]) == p[26..50] + Concat<byte>([]);
  }

  lemma FilteredLength()
    ensures var r := TwoQuestions(); r.Valid() && |Encode(Filtered(r))| == 41
    ensures Kept(TwoQuestions().answers) == TwoQuestions().answers[..1]
  {
    var r := TwoQuestions();
    assert Kept(r.answers[1..]) == [] by { assert Kept(r.answers[1..][1..]) == []; }
    assert r.answers[..1] == [r.answers[0]];
    hide Kept, Concat, EncodeRecords, EncodeQuestions;
    QuestionsEncoded();
    AnswersEncoded();
    EncodingIsRead(Filtered(r));
  }
}
