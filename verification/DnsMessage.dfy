/** DNS messages: the question and answer sections around the names of section 4.1.4 of RFC 1035. */
module DnsMessage {
  import opened Prelude
  import opened DnsName

  datatype Question = Question(name: seq<Bytes>, qtype: u16, qclass: u16)

  datatype Record = Record(name: seq<Bytes>, rtype: u16, class_: u16, ttl: u32, rdata: Bytes)

  /** The decoded message; the flag word is kept whole. */
  datatype Info = Info(id: u16, flags: u16, counts: seq<u16>, query: Option<Question>, answers: seq<Record>)

  const HEADER := 12

  /** The question at `off` and the offset after it. */
  function QuestionAt(p: Bytes, off: nat): Option<(Question, nat)> {
    var name := Decode(p, off, LIMIT);
    if name.None? || name.value.end + 4 > |p| then None
    else
      var at := name.value.end;
      Some((Question(name.value.labels, Be16(p, at), Be16(p, at + 2)), at + 4))
  }

  /** The questions read before the first that does not parse, and the offset reached. */
  function QuestionsFrom(p: Bytes, off: nat, n: nat): (seq<Question>, nat)
    decreases n, |p|
  {
    var q := QuestionAt(p, off);
    if n == 0 || q.None? then ([], off)
    else
      var (rest, end) := QuestionsFrom(p, q.value.1, n - 1);
      ([q.value.0] + rest, end)
  }

  function RecordAt(p: Bytes, off: nat): Option<(Record, nat)> {
    var name := Decode(p, off, LIMIT);
    if name.None? || name.value.end + 10 > |p| then None
    else
      var at := name.value.end;
      var end := at + 10 + Be16(p, at + 8);
      if end > |p| then None
      else Some((Record(name.value.labels, Be16(p, at), Be16(p, at + 2), Be32(p, at + 4), p[at + 10..end]), end))
  }

  function RecordsFrom(p: Bytes, off: nat, n: nat): seq<Record>
    decreases n, |p|
  {
    var r := RecordAt(p, off);
    if n == 0 || r.None? then [] else [r.value.0] + RecordsFrom(p, r.value.1, n - 1)
  }

  function FirstOf<T>(s: seq<T>): Option<T> {
    if s == [] then None else Some(s[0])
  }

  /** What the message parser reports: the first question and the answers up to the first that does not parse. */
  function InfoOf(p: Bytes): Info
    requires |p| >= HEADER
  {
    var (questions, off) := QuestionsFrom(p, HEADER, Be16(p, 4));
    Info(Be16(p, 0), Be16(p, 2), [Be16(p, 4), Be16(p, 6), Be16(p, 8), Be16(p, 10)],
         FirstOf(questions), RecordsFrom(p, off, Be16(p, 6)))
  }

  method ParseQuestions(p: Bytes, count: nat) returns (query: Option<Question>, offset: nat)
    ensures (query, offset) == (FirstOf(QuestionsFrom(p, HEADER, count).0), QuestionsFrom(p, HEADER, count).1)
  {
    query, offset := None, HEADER;
    ghost var whole := QuestionsFrom(p, HEADER, count);
    var i := 0;
    while i < count
      invariant i <= count
      invariant whole.1 == QuestionsFrom(p, offset, count - i).1
      invariant FirstOf(whole.0) == if query.Some? then query else FirstOf(QuestionsFrom(p, offset, count - i).0)
    {
      var name := DecodeName(p, offset);
      if name.None? || name.value.end + 4 > |p| {
        break;
      }
      var at := name.value.end;
      if query.None? {
        query := Some(Question(name.value.labels, Be16(p, at), Be16(p, at + 2)));
      }
      offset := at + 4;
      i := i + 1;
    }
  }

  method ParseRecord(p: Bytes, offset: nat) returns (r: Option<(Record, nat)>)
    ensures r == RecordAt(p, offset)
  {
    hide Decode;
    var name := DecodeName(p, offset);
    if name.None? || name.value.end + 10 > |p| {
      return None;
    }
    var at := name.value.end;
    var end := at + 10 + Be16(p, at + 8);
    if end > |p| {
      return None;
    }
    return Some((Record(name.value.labels, Be16(p, at), Be16(p, at + 2), Be32(p, at + 4), p[at + 10..end]), end));
  }

  method ParseAnswers(p: Bytes, start: nat, count: nat) returns (answers: seq<Record>)
    ensures answers == RecordsFrom(p, start, count)
  {
    hide RecordAt;
    answers := [];
    var offset: nat, i: nat := start, 0;
    NothingMore(RecordsFrom(p, start, count));
    while i < count
      invariant i <= count
      invariant answers + RecordsFrom(p, offset, count - i) == RecordsFrom(p, start, count)
    {
      NothingMore(answers);
      var r := ParseRecord(p, offset);
      if r.None? {
        return;
      }
      AppendThenRest(answers, r.value.0, RecordsFrom(p, r.value.1, count - i - 1));
      answers := answers + [r.value.0];
      offset := r.value.1;
      i := i + 1;
    }
    NothingMore(answers);
  }

  method ParseDns(p: Bytes) returns (info: Option<Info>)
    ensures info == if |p| < HEADER then None else Some(InfoOf(p))
  {
    if |p| < HEADER {
      return None;
    }
    var query, offset := ParseQuestions(p, Be16(p, 4));
    var answers := ParseAnswers(p, offset, Be16(p, 6));
    return Some(Info(Be16(p, 0), Be16(p, 2), [Be16(p, 4), Be16(p, 6), Be16(p, 8), Be16(p, 10)], query, answers));
  }

  // Fixed fields

  function RecordTail(rtype: u16, class_: u16, ttl: u32, rdata: Bytes): (r: Bytes)
    requires |rdata| < 0x1_0000
    ensures |r| == 10 + |rdata|
  {
    Bytes16(rtype) + (Bytes16(class_) + (Bytes32(ttl) + (Bytes16(|rdata|) + rdata)))
  }

  lemma Be16Then(p: Bytes, at: nat, v: u16, rest: Bytes)
    requires At(p, at, Bytes16(v) + rest)
    ensures at + 2 <= |p| && Be16(p, at) == v && At(p, at + 2, rest)
  {
    AtAppend(p, at, Bytes16(v), rest);
    Be16Encoded(p, at, v);
  }

  lemma Be32Then(p: Bytes, at: nat, v: u32, rest: Bytes)
    requires At(p, at, Bytes32(v) + rest)
    ensures at + 4 <= |p| && Be32(p, at) == v && At(p, at + 4, rest)
  {
    AtAppend(p, at, Bytes32(v), rest);
    Be32Encoded(p, at, v);
  }

  /** The fixed fields of a record, and its data, from the end of its name on. */
  lemma TailReadBack(p: Bytes, at: nat, rtype: u16, class_: u16, ttl: u32, rdata: Bytes)
    requires |rdata| < 0x1_0000 && At(p, at, RecordTail(rtype, class_, ttl, rdata))
    ensures at + 10 + |rdata| <= |p|
    ensures Be16(p, at) == rtype && Be16(p, at + 2) == class_ && Be32(p, at + 4) == ttl
    ensures Be16(p, at + 8) == |rdata| && p[at + 10..at + 10 + |rdata|] == rdata
  {
    hide Be16, Be32;
    Be16Then(p, at, rtype, Bytes16(class_) + (Bytes32(ttl) + (Bytes16(|rdata|) + rdata)));
    Be16Then(p, at + 2, class_, Bytes32(ttl) + (Bytes16(|rdata|) + rdata));
    Be32Then(p, at + 4, ttl, Bytes16(|rdata|) + rdata);
    Be16Then(p, at + 8, |rdata|, rdata);
  }

  // Sections as they lie in a message, whatever the compression of their names

  /** A question whose name reads as `name`, and the same for a record. */
  datatype QuestionText = QuestionText(name: Name, qtype: u16, qclass: u16)

  datatype RecordText = RecordText(name: Name, rtype: u16, class_: u16, ttl: u32, rdata: Bytes)

  function QuestionOf(t: QuestionText): Question {
    Question(Labels(t.name), t.qtype, t.qclass)
  }

  function RecordOf(t: RecordText): Record {
    Record(Labels(t.name), t.rtype, t.class_, t.ttl, t.rdata)
  }

  function QuestionsOf(ts: seq<QuestionText>): (qs: seq<Question>)
    ensures |qs| == |ts|
  {
    if ts == [] then [] else [QuestionOf(ts[0])] + QuestionsOf(ts[1..])
  }

  function RecordsOf(ts: seq<RecordText>): (rs: seq<Record>)
    ensures |rs| == |ts|
  {
    if ts == [] then [] else [RecordOf(ts[0])] + RecordsOf(ts[1..])
  }

  /** The name spelled at `at`, by labels and pointers to anywhere before, in at most 127 steps. */
  predicate NameLies(p: Bytes, at: nat, name: Name) {
    Reads(p, at, name) && Steps(name) < LIMIT
  }

  predicate QuestionLies(p: Bytes, at: nat, t: QuestionText) {
    NameLies(p, at, t.name) && At(p, EndOf(at, t.name), Bytes16(t.qtype) + Bytes16(t.qclass))
  }

  predicate RecordLies(p: Bytes, at: nat, t: RecordText) {
    NameLies(p, at, t.name) && |t.rdata| < 0x1_0000 && At(p, EndOf(at, t.name), TextTail(t))
  }

  function TextTail(t: RecordText): Bytes
    requires |t.rdata| < 0x1_0000
  {
    RecordTail(t.rtype, t.class_, t.ttl, t.rdata)
  }

  function AfterQuestion(at: nat, t: QuestionText): nat {
    EndOf(at, t.name) + 4
  }

  function AfterRecord(at: nat, t: RecordText): nat {
    EndOf(at, t.name) + 10 + |t.rdata|
  }

  predicate QuestionsLie(p: Bytes, at: nat, ts: seq<QuestionText>)
    decreases |ts|
  {
    ts == [] || (QuestionLies(p, at, ts[0]) && QuestionsLie(p, AfterQuestion(at, ts[0]), ts[1..]))
  }

  predicate RecordsLie(p: Bytes, at: nat, ts: seq<RecordText>)
    decreases |ts|
  {
    ts == [] || (RecordLies(p, at, ts[0]) && RecordsLie(p, AfterRecord(at, ts[0]), ts[1..]))
  }

  function AfterQuestions(at: nat, ts: seq<QuestionText>): nat
    decreases |ts|
  {
    if ts == [] then at else AfterQuestions(AfterQuestion(at, ts[0]), ts[1..])
  }

  lemma QuestionReadBack(p: Bytes, at: nat, t: QuestionText)
    requires QuestionLies(p, at, t)
    ensures QuestionAt(p, at) == Some((QuestionOf(t), AfterQuestion(at, t)))
  {
    hide At, Be16, Reads, Decode;
    var end := EndOf(at, t.name);
    DecodesExactly(p, at, t.name);
    Be16Then(p, end, t.qtype, Bytes16(t.qclass));
    Be16Encoded(p, end + 2, t.qclass);
    AtFits(p, end + 2, Bytes16(t.qclass));
  }

  lemma RecordReadBack(p: Bytes, at: nat, t: RecordText)
    requires RecordLies(p, at, t)
    ensures RecordAt(p, at) == Some((RecordOf(t), AfterRecord(at, t)))
  {
    hide At, Be16, Be32, Reads, Decode, RecordTail;
    DecodesExactly(p, at, t.name);
    TailReadBack(p, EndOf(at, t.name), t.rtype, t.class_, t.ttl, t.rdata);
  }

  lemma {:induction false} QuestionsReadBack(p: Bytes, at: nat, ts: seq<QuestionText>)
    requires QuestionsLie(p, at, ts)
    ensures QuestionsFrom(p, at, |ts|) == (QuestionsOf(ts), AfterQuestions(at, ts))
    decreases |ts|
  {
    hide QuestionLies, QuestionAt, AfterQuestion;
    if ts == [] {
    } else {
      QuestionReadBack(p, at, ts[0]);
      QuestionsReadBack(p, AfterQuestion(at, ts[0]), ts[1..]);
    }
  }

  lemma {:induction false} RecordsReadBack(p: Bytes, at: nat, ts: seq<RecordText>)
    requires RecordsLie(p, at, ts)
    ensures RecordsFrom(p, at, |ts|) == RecordsOf(ts)
    decreases |ts|
  {
    hide RecordLies, RecordAt, AfterRecord;
    if ts == [] {
    } else {
      RecordReadBack(p, at, ts[0]);
      RecordsReadBack(p, AfterRecord(at, ts[0]), ts[1..]);
    }
  }

  /**
    A message in which these questions and records lie one after another, each name compressed or not as
    the sender chose, reports its first question and every answer.
   */
  lemma {:induction false} MessageReadsBack(p: Bytes, qs: seq<QuestionText>, rs: seq<RecordText>)
    requires |p| >= HEADER && Be16(p, 4) == |qs| && Be16(p, 6) == |rs|
    requires QuestionsLie(p, HEADER, qs) && RecordsLie(p, AfterQuestions(HEADER, qs), rs)
    ensures InfoOf(p).query == FirstOf(QuestionsOf(qs)) && InfoOf(p).answers == RecordsOf(rs)
  {
    hide QuestionsLie, RecordsLie, QuestionsFrom, RecordsFrom, QuestionsOf, RecordsOf, AfterQuestions;
    QuestionsReadBack(p, HEADER, qs);
    RecordsReadBack(p, AfterQuestions(HEADER, qs), rs);
  }

  // Encoding, with uncompressed names: one way to lay a message out

  predicate WellFormedName(name: seq<Bytes>) {
    |name| < LIMIT && AllLabels(name)
  }

  function EncodeQuestion(q: Question): Bytes
    requires WellFormedName(q.name)
  {
    Encode(q.name, [0]) + (Bytes16(q.qtype) + Bytes16(q.qclass))
  }

  predicate WellFormedRecord(r: Record) {
    WellFormedName(r.name) && |r.rdata| < 0x1_0000
  }

  function EncodeRecord(r: Record): Bytes
    requires WellFormedRecord(r)
  {
    Encode(r.name, [0]) + RecordTail(r.rtype, r.class_, r.ttl, r.rdata)
  }

  predicate AllQuestions(qs: seq<Question>) {
    forall i :: 0 <= i < |qs| ==> WellFormedName(qs[i].name)
  }

  predicate AllRecords(rs: seq<Record>) {
    forall i :: 0 <= i < |rs| ==> WellFormedRecord(rs[i])
  }

  function EncodeQuestions(qs: seq<Question>): Bytes
    requires AllQuestions(qs)
  {
    if qs == [] then [] else EncodeQuestion(qs[0]) + EncodeQuestions(qs[1..])
  }

  function EncodeRecords(rs: seq<Record>): Bytes
    requires AllRecords(rs)
  {
    if rs == [] then [] else EncodeRecord(rs[0]) + EncodeRecords(rs[1..])
  }

  /** A question or record with its name spelled out. */
  function SpellQuestion(q: Question): QuestionText {
    QuestionText(WithParts(q.name, Root), q.qtype, q.qclass)
  }

  function SpellRecord(r: Record): RecordText {
    RecordText(WithParts(r.name, Root), r.rtype, r.class_, r.ttl, r.rdata)
  }

  function SpellQuestions(qs: seq<Question>): (ts: seq<QuestionText>)
    ensures |ts| == |qs|
  {
    if qs == [] then [] else [SpellQuestion(qs[0])] + SpellQuestions(qs[1..])
  }

  function SpellRecords(rs: seq<Record>): (ts: seq<RecordText>)
    ensures |ts| == |rs|
  {
    if rs == [] then [] else [SpellRecord(rs[0])] + SpellRecords(rs[1..])
  }

  lemma EncodedQuestionLies(p: Bytes, at: nat, q: Question)
    requires WellFormedName(q.name) && At(p, at, EncodeQuestion(q))
    ensures QuestionLies(p, at, SpellQuestion(q)) && QuestionOf(SpellQuestion(q)) == q
    ensures AfterQuestion(at, SpellQuestion(q)) == at + |EncodeQuestion(q)|
  {
    hide At, Encode, Reads, Labels, EndOf;
    AtAppend(p, at, Encode(q.name, [0]), Bytes16(q.qtype) + Bytes16(q.qclass));
    EncodedIsRead(p, at, q.name);
  }

  lemma EncodedRecordLies(p: Bytes, at: nat, r: Record)
    requires WellFormedRecord(r) && At(p, at, EncodeRecord(r))
    ensures RecordLies(p, at, SpellRecord(r)) && RecordOf(SpellRecord(r)) == r
    ensures AfterRecord(at, SpellRecord(r)) == at + |EncodeRecord(r)|
  {
    hide At, Encode, Reads, Labels, EndOf;
    AtAppend(p, at, Encode(r.name, [0]), RecordTail(r.rtype, r.class_, r.ttl, r.rdata));
    EncodedIsRead(p, at, r.name);
  }

  lemma {:induction false} EncodedQuestionsLie(p: Bytes, at: nat, qs: seq<Question>)
    requires AllQuestions(qs) && At(p, at, EncodeQuestions(qs))
    ensures QuestionsLie(p, at, SpellQuestions(qs)) && QuestionsOf(SpellQuestions(qs)) == qs
    ensures AfterQuestions(at, SpellQuestions(qs)) == at + |EncodeQuestions(qs)|
    decreases |qs|
  {
    hide At, EncodeQuestion, QuestionLies, SpellQuestion, QuestionOf, AfterQuestion;
    if qs == [] {
    } else {
      HeadAndTail(qs);
      AtAppend(p, at, EncodeQuestion(qs[0]), EncodeQuestions(qs[1..]));
      EncodedQuestionLies(p, at, qs[0]);
      EncodedQuestionsLie(p, at + |EncodeQuestion(qs[0])|, qs[1..]);
      assert SpellQuestions(qs)[1..] == SpellQuestions(qs[1..]);
    }
  }

  lemma {:induction false} EncodedRecordsLie(p: Bytes, at: nat, rs: seq<Record>)
    requires AllRecords(rs) && At(p, at, EncodeRecords(rs))
    ensures RecordsLie(p, at, SpellRecords(rs)) && RecordsOf(SpellRecords(rs)) == rs
    decreases |rs|
  {
    hide At, EncodeRecord, RecordLies, SpellRecord, RecordOf, AfterRecord;
    if rs == [] {
    } else {
      HeadAndTail(rs);
      AtAppend(p, at, EncodeRecord(rs[0]), EncodeRecords(rs[1..]));
      EncodedRecordLies(p, at, rs[0]);
      EncodedRecordsLie(p, at + |EncodeRecord(rs[0])|, rs[1..]);
      assert SpellRecords(rs)[1..] == SpellRecords(rs[1..]);
    }
  }

  /** The twelve bytes before the questions: identifier, flags and the four section counts. */
  function EncodeHeader(id: u16, flags: u16, questions: u16, answers: u16, authorities: u16, additional: u16)
    : (r: Bytes)
    ensures |r| == 12
  {
    Bytes16(id) + Bytes16(flags) + Bytes16(questions) + Bytes16(answers) + Bytes16(authorities) + Bytes16(additional)
  }

  lemma HeaderReadsBack(p: Bytes, id: u16, flags: u16, questions: u16, answers: u16, authorities: u16, additional: u16)
    requires At(p, 0, EncodeHeader(id, flags, questions, answers, authorities, additional))
    ensures |p| >= 12 && Be16(p, 0) == id && Be16(p, 2) == flags && Be16(p, 4) == questions && Be16(p, 6) == answers
    ensures Be16(p, 8) == authorities && Be16(p, 10) == additional
  {
    hide Bytes16, Be16;
    assert p[..12] == EncodeHeader(id, flags, questions, answers, authorities, additional);
    assert At(p, 0, Bytes16(id)) && At(p, 2, Bytes16(flags)) && At(p, 4, Bytes16(questions));
    assert At(p, 6, Bytes16(answers)) && At(p, 8, Bytes16(authorities)) && At(p, 10, Bytes16(additional));
    Be16Encoded(p, 0, id);
    Be16Encoded(p, 2, flags);
    Be16Encoded(p, 4, questions);
    Be16Encoded(p, 6, answers);
    Be16Encoded(p, 8, authorities);
    Be16Encoded(p, 10, additional);
  }

  /** Round trip: an encoded message, whatever follows it, reports its header, its first question and every answer. */
  lemma {:induction false} MessageRoundTrip(p: Bytes, id: u16, flags: u16, authorities: u16, additional: u16,
                                            qs: seq<Question>, rs: seq<Record>)
    requires AllQuestions(qs) && AllRecords(rs) && |qs| < 0x1_0000 && |rs| < 0x1_0000
    requires At(p, 0, EncodeHeader(id, flags, |qs|, |rs|, authorities, additional)
                      + (EncodeQuestions(qs) + EncodeRecords(rs)))
    ensures |p| >= 12
    ensures InfoOf(p) == Info(id, flags, [|qs|, |rs|, authorities, additional], FirstOf(qs), rs)
  {
    hide At, EncodeQuestions, EncodeRecords, QuestionsLie, RecordsLie, AllQuestions, AllRecords, EncodeHeader,
         QuestionsFrom, RecordsFrom, Be16;
    AtAppend(p, 0, EncodeHeader(id, flags, |qs|, |rs|, authorities, additional),
             EncodeQuestions(qs) + EncodeRecords(rs));
    HeaderReadsBack(p, id, flags, |qs|, |rs|, authorities, additional);
    AtAppend(p, HEADER, EncodeQuestions(qs), EncodeRecords(rs));
    EncodedQuestionsLie(p, HEADER, qs);
    EncodedRecordsLie(p, HEADER + |EncodeQuestions(qs)|, rs);
    MessageReadsBack(p, SpellQuestions(qs), SpellRecords(rs));
  }
}
