/** DNS messages as the proxy walks them, and as sections 4.1 and 4.1.4 of RFC 1035 read them. */
module DnsMessage {
  import opened Bytes

  const TYPE_AAAA: U16 := 28

  /** Offset of the first question's name. */
  const QUESTION: nat := 12

  // ---------------------------------------------------------------------------------
  // What the proxy's own walks compute
  // ---------------------------------------------------------------------------------

  /** question_end from offset `pos` of the name on. */
  function QuestionEndFrom(m: seq<Byte>, pos: nat): (end: Option<nat>)
    ensures end.Some? ==> pos + 5 <= end.value <= |m|
    decreases |m| - pos
  {
    if pos >= |m| then None
    else if m[pos] == 0 then if |m| >= pos + 5 then Some(pos + 5) else None
    else if m[pos] < 0x40 then QuestionEndFrom(m, pos + 1 + m[pos])
    else None
  }

  function QuestionEnd(m: seq<Byte>): Option<nat> { QuestionEndFrom(m, QUESTION) }

  /** Past an owner name: labels, ended by a zero octet or a pointer. */
  function NameEnd(m: seq<Byte>, pos: nat): (end: Option<nat>)
    ensures end.Some? ==> pos < end.value
    decreases |m| - pos
  {
    if pos >= |m| then None
    else if m[pos] == 0 then Some(pos + 1)
    else if m[pos] >= 0xc0 then Some(pos + 2)
    else NameEnd(m, pos + 1 + m[pos])
  }

  /** TYPE, CLASS, TTL and RDLENGTH as they stand, and the data. */
  datatype Record = Record(fixed: seq<Byte>, rdata: seq<Byte>)

  predicate ValidRecord(r: Record) {
    |r.fixed| == 10 && U16At(r.fixed, 8) == |r.rdata|
  }

  /** The record at `pos` and the offset after it. */
  function RecordAt(m: seq<Byte>, pos: nat): (r: Option<(Record, nat)>)
    ensures r.Some? ==> ValidRecord(r.value.0) && pos < r.value.1 <= |m|
  {
    var end := NameEnd(m, pos);
    if end.None? || end.value + 10 > |m| then None
    else
      var fixed := m[end.value..end.value + 10];
      var rdlen := U16At(fixed, 8);
      if end.value + 10 + rdlen > |m| then None
      else Some((Record(fixed, m[end.value + 10..end.value + 10 + rdlen]), end.value + 10 + rdlen))
  }

  function RecordsFrom(m: seq<Byte>, pos: nat, count: nat): (rs: Option<seq<Record>>)
    ensures rs.Some? ==> |rs.value| == count && AllValid(rs.value)
    decreases count
  {
    if count == 0 then Some([])
    else
      var first := RecordAt(m, pos);
      if first.None? then None
      else
        var rest := RecordsFrom(m, first.value.1, count - 1);
        if rest.None? then None else Some([first.value.0] + rest.value)
  }

  predicate IsAddress(r: Record)
    requires ValidRecord(r)
  {
    U16At(r.fixed, 0) == TYPE_AAAA && |r.rdata| == 16
  }

  predicate AllValid(rs: seq<Record>) {
    forall i :: 0 <= i < |rs| ==> ValidRecord(rs[i])
  }

  function Addresses(rs: seq<Record>): (kept: seq<Record>)
    requires AllValid(rs)
    ensures |kept| <= |rs| && AllValid(kept) && forall i :: 0 <= i < |kept| ==> IsAddress(kept[i])
  {
    if rs == [] then []
    else (if IsAddress(rs[0]) then [rs[0]] else []) + Addresses(rs[1..])
  }

  /** A record owned by the question's name. */
  function Pointed(r: Record): seq<Byte> {
    [0xc0, 0x0c] + r.fixed + r.rdata
  }

  function PointedAll(rs: seq<Record>): seq<Byte> {
    if rs == [] then [] else Pointed(rs[0]) + PointedAll(rs[1..])
  }

  function Header(id: seq<Byte>, flags: seq<Byte>, answers: U16): (h: seq<Byte>)
    requires |id| == 2 && |flags| == 2
    ensures |h| == 12
  {
    id + flags + [0, 1] + Be16(answers) + [0, 0, 0, 0]
  }

  /** The reply's records as answer_as_asked reads them. */
  function ReplyRecords(reply: seq<Byte>): (rs: Option<seq<Record>>)
    ensures rs.Some? ==> AllValid(rs.value) && |rs.value| < 0x1_0000
  {
    var end := QuestionEnd(reply);
    if end.None? then None else RecordsFrom(reply, end.value, U16At(reply, 6))
  }

  function AnswerAsAsked(query: seq<Byte>, reply: seq<Byte>): Option<seq<Byte>> {
    var end, rs := QuestionEnd(query), ReplyRecords(reply);
    if end.None? || rs.None? then None
    else
      var kept := Addresses(rs.value);
      Some(Header(query[..2], reply[2..4], |kept|) + query[QUESTION..end.value] + PointedAll(kept))
  }

  // ---------------------------------------------------------------------------------
  // The same as loops
  // ---------------------------------------------------------------------------------

  method QuestionEndLoop(message: seq<Byte>) returns (end: Option<nat>)
    ensures end == QuestionEnd(message)
  {
    var pos := QUESTION;
    while true
      invariant QuestionEnd(message) == QuestionEndFrom(message, pos)
      decreases |message| - pos
    {
      if pos >= |message| {
        return None;
      }
      if message[pos] == 0 {
        break;
      } else if message[pos] < 0x40 {
        pos := pos + 1 + message[pos];
      } else {
        return None;
      }
    }
    end := if |message| >= pos + 5 then Some(pos + 5) else None;
  }

  /** `out[i..]` overwritten by `part`. */
  function Overwrite(out: seq<Byte>, i: nat, part: seq<Byte>): (r: seq<Byte>)
    requires i + |part| <= |out|
    ensures |r| == |out|
  {
    out[..i] + part + out[i + |part|..]
  }

  method AnswerAsAskedLoop(query: seq<Byte>, reply: seq<Byte>) returns (r: Option<seq<Byte>>)
    ensures r == AnswerAsAsked(query, reply)
  {
    var end := QuestionEndLoop(query);
    if end.None? || |reply| < 4 {
      return None;
    }
    var out := query[..end.value];
    out := Overwrite(out, 2, reply[2..4]);
    out := Overwrite(out, 4, [0, 1, 0, 0, 0, 0, 0, 0]);
    HeaderWritten(query, end.value, reply[2..4]);

    var start := QuestionEndLoop(reply);
    if start.None? {
      return None;
    }
    var records, answers := CollectAddresses(reply, start.value, U16At(reply, 6));
    if records.None? {
      return None;
    }
    CountWritten(query[..2], reply[2..4], query[QUESTION..end.value], answers);
    out := Overwrite(out, 6, Be16(answers));
    r := Some(out + records.value);
  }

  lemma HeaderWritten(query: seq<Byte>, end: nat, flags: seq<Byte>)
    requires 12 <= end <= |query| && |flags| == 2
    ensures Overwrite(Overwrite(query[..end], 2, flags), 4, [0, 1, 0, 0, 0, 0, 0, 0])
         == Header(query[..2], flags, 0) + query[QUESTION..end]
  {
  }

  lemma CountWritten(id: seq<Byte>, flags: seq<Byte>, question: seq<Byte>, answers: U16)
    requires |id| == 2 && |flags| == 2
    ensures Overwrite(Header(id, flags, 0) + question, 6, Be16(answers)) == Header(id, flags, answers) + question
  {
  }

  /** `kept`, followed by the addresses among the next `count` records. */
  ghost function KeptAfter(kept: seq<Record>, m: seq<Byte>, pos: nat, count: nat): Option<seq<Record>> {
    var rs := RecordsFrom(m, pos, count);
    if rs.None? then None else Some(kept + Addresses(rs.value))
  }

  lemma KeptStep(kept: seq<Record>, m: seq<Byte>, pos: nat, count: nat)
    requires 0 < count && RecordAt(m, pos).Some?
    ensures var (r, next) := RecordAt(m, pos).value;
      KeptAfter(kept, m, pos, count) == KeptAfter(if IsAddress(r) then kept + [r] else kept, m, next, count - 1)
  {
    var (r, next) := RecordAt(m, pos).value;
    var rest := RecordsFrom(m, next, count - 1);
    if rest.Some? {
      AddressesCons(r, rest.value);
      if IsAddress(r) {
        assert kept + ([r] + Addresses(rest.value)) == (kept + [r]) + Addresses(rest.value);
      } else {
        assert [] + Addresses(rest.value) == Addresses(rest.value);
      }
    }
  }

  lemma NoneLeft(kept: seq<Record>, m: seq<Byte>, pos: nat)
    ensures KeptAfter(kept, m, pos, 0) == Some(kept)
  {
    assert Addresses([]) == [];
    assert kept + [] == kept;
  }

  lemma KeptFromStart(m: seq<Byte>, pos: nat, count: nat)
    ensures var rs := RecordsFrom(m, pos, count);
      KeptAfter([], m, pos, count) == if rs.None? then None else Some(Addresses(rs.value))
  {
    var rs := RecordsFrom(m, pos, count);
    if rs.Some? {
      assert [] + Addresses(rs.value) == Addresses(rs.value);
    }
  }

  /** The loop over the reply's answers: what it appends, and how many records that is. */
  method CollectAddresses(reply: seq<Byte>, start: nat, count: U16) returns (out: Option<seq<Byte>>, answers: U16)
    ensures var rs := RecordsFrom(reply, start, count);
      && (out.None? <==> rs.None?)
      && (rs.Some? ==> out == Some(PointedAll(Addresses(rs.value))) && answers == |Addresses(rs.value)|)
  {
    KeptFromStart(reply, start, count);
    var pos, bytes := start, [];
    answers := 0;
    ghost var kept: seq<Record> := [];
    for i := 0 to count
      invariant KeptAfter([], reply, start, count) == KeptAfter(kept, reply, pos, count - i)
      invariant |kept| <= i && answers == |kept| && bytes == PointedAll(kept)
    {
      var record := ReadRecord(reply, pos);
      if record.None? {
        return None, 0;
      }
      var (rec, next) := record.value;
      KeptStep(kept, reply, pos, count - i);
      if U16At(rec.fixed, 0) == TYPE_AAAA && |rec.rdata| == 16 {
        PointedAppend(kept, rec);
        bytes := bytes + [0xc0, 0x0c];
        bytes := bytes + rec.fixed;
        bytes := bytes + rec.rdata;
        kept := kept + [rec];
        answers := answers + 1;
      }
      pos := next;
    }
    NoneLeft(kept, reply, pos);
    out := Some(bytes);
  }

  lemma AddressesCons(r: Record, rs: seq<Record>)
    requires ValidRecord(r) && AllValid(rs)
    ensures Addresses([r] + rs) == (if IsAddress(r) then [r] else []) + Addresses(rs)
  {
    assert ([r] + rs)[1..] == rs;
  }

  method ReadRecord(reply: seq<Byte>, start: nat) returns (r: Option<(Record, nat)>)
    ensures r == RecordAt(reply, start)
  {
    var pos := start;
    while true
      invariant NameEnd(reply, start) == NameEnd(reply, pos)
      decreases |reply| - pos
    {
      if pos >= |reply| {
        return None;
      }
      if reply[pos] == 0 {
        pos := pos + 1;
        break;
      } else if reply[pos] >= 0xc0 {
        pos := pos + 2;
        break;
      } else {
        pos := pos + 1 + reply[pos];
      }
    }
    if pos + 10 > |reply| {
      return None;
    }
    var fixed := reply[pos..pos + 10];
    var rdlen := U16At(fixed, 8);
    if pos + 10 + rdlen > |reply| {
      return None;
    }
    r := Some((Record(fixed, reply[pos + 10..pos + 10 + rdlen]), pos + 10 + rdlen));
  }

  lemma {:induction false} PointedAppend(rs: seq<Record>, r: Record)
    ensures PointedAll(rs + [r]) == PointedAll(rs) + Pointed(r)
  {
    if rs == [] {
      assert [] + [r] == [r];
      assert PointedAll([r]) == Pointed(r) + PointedAll([r][1..]);
    } else {
      PointedAppend(rs[1..], r);
      assert (rs + [r])[1..] == rs[1..] + [r];
    }
  }

  // ---------------------------------------------------------------------------------
  // Sections 4.1 and 4.1.4 of RFC 1035
  // ---------------------------------------------------------------------------------

  type Name = seq<seq<Byte>>

  /** The labels of the name at `pos`; a pointer leads to a name before `start`, where this one began. */
  function NameAt(m: seq<Byte>, pos: nat, start: nat): Option<Name>
    decreases start, |m| - pos
  {
    if pos >= |m| then None
    else if m[pos] == 0 then Some([])
    else if m[pos] < 0x40 then
      if pos + 1 + m[pos] > |m| then None
      else
        var rest := NameAt(m, pos + 1 + m[pos], start);
        if rest.None? then None else Some([m[pos + 1..pos + 1 + m[pos]]] + rest.value)
    else if m[pos] >= 0xc0 && pos + 2 <= |m| then
      var target := (m[pos] as int - 0xc0) * 0x100 + m[pos + 1] as int;
      if target < start then NameAt(m, target, target) else None
    else None
  }

  /** The offset after the name at `pos`. */
  function NameSpan(m: seq<Byte>, pos: nat): (end: Option<nat>)
    ensures end.Some? ==> pos < end.value <= |m|
    decreases |m| - pos
  {
    if pos >= |m| then None
    else if m[pos] == 0 then Some(pos + 1)
    else if m[pos] < 0x40 then NameSpan(m, pos + 1 + m[pos])
    else if m[pos] >= 0xc0 && pos + 2 <= |m| then Some(pos + 2)
    else None
  }

  datatype Question = Question(name: Name, qtype: U16, qclass: U16)

  datatype Answer = Answer(name: Name, rtype: U16, rclass: U16, ttl: seq<Byte>, rdata: seq<Byte>)

  /** A message with one question; `more` is whatever follows its answers. */
  datatype Message = Message(
    id: seq<Byte>, flags: seq<Byte>, question: Question, answers: seq<Answer>, nscount: U16, arcount: U16,
    more: seq<Byte>)

  function ReadAnswer(m: seq<Byte>, pos: nat): (a: Option<(Answer, nat)>)
    ensures a.Some? ==> pos < a.value.1 <= |m|
  {
    var name, end := NameAt(m, pos, pos), NameSpan(m, pos);
    if name.None? || end.None? || end.value + 10 > |m| then None
    else
      var e := end.value;
      var rdlen := U16At(m, e + 8);
      if e + 10 + rdlen > |m| then None
      else Some((Answer(name.value, U16At(m, e), U16At(m, e + 2), m[e + 4..e + 8], m[e + 10..e + 10 + rdlen]),
                 e + 10 + rdlen))
  }

  function ReadAnswers(m: seq<Byte>, pos: nat, count: nat): (r: Option<(seq<Answer>, nat)>)
    requires pos <= |m|
    ensures r.Some? ==> r.value.1 <= |m|
    decreases count
  {
    if count == 0 then Some(([], pos))
    else
      var first := ReadAnswer(m, pos);
      if first.None? then None
      else
        var rest := ReadAnswers(m, first.value.1, count - 1);
        if rest.None? then None else Some(([first.value.0] + rest.value.0, rest.value.1))
  }

  function ReadQuestion(m: seq<Byte>): (q: Option<(Question, nat)>)
    ensures q.Some? ==> q.value.1 <= |m|
  {
    var name, end := NameAt(m, QUESTION, QUESTION), NameSpan(m, QUESTION);
    if name.None? || end.None? || end.value + 4 > |m| then None
    else Some((Question(name.value, U16At(m, end.value), U16At(m, end.value + 2)), end.value + 4))
  }

  function Read(m: seq<Byte>): Option<Message> {
    if |m| < 12 || U16At(m, 4) != 1 then None
    else
      var q := ReadQuestion(m);
      if q.None? then None
      else
        var a := ReadAnswers(m, q.value.1, U16At(m, 6));
        if a.None? then None
        else Some(Message(m[..2], m[2..4], q.value.0, a.value.0, U16At(m, 8), U16At(m, 10), m[a.value.1..]))
  }

  // ---------------------------------------------------------------------------------
  // The proxy's walks against it
  // ---------------------------------------------------------------------------------

  /** The proxy's question is a name without pointers, its type and its class. */
  lemma {:induction false} QuestionIsName(m: seq<Byte>, pos: nat, start: nat)
    requires QuestionEndFrom(m, pos).Some?
    ensures NameAt(m, pos, start).Some? && NameSpan(m, pos) == Some(QuestionEndFrom(m, pos).value - 4)
    decreases |m| - pos
  {
    if m[pos] != 0 {
      QuestionIsName(m, pos + 1 + m[pos], start);
    }
  }

  /** The walk over a question reads nothing but the question. */
  lemma {:induction false} QuestionIsLocal(m: seq<Byte>, n: seq<Byte>, pos: nat, start: nat)
    requires QuestionEndFrom(m, pos).Some? && QuestionEndFrom(m, pos).value <= |n|
    requires forall i :: pos <= i < QuestionEndFrom(m, pos).value ==> m[i] == n[i]
    ensures QuestionEndFrom(n, pos) == QuestionEndFrom(m, pos)
    ensures NameAt(n, pos, start) == NameAt(m, pos, start)
    decreases |m| - pos
  {
    QuestionIsName(m, pos, start);
    if m[pos] != 0 {
      var next := pos + 1 + m[pos];
      QuestionIsName(m, next, start);
      QuestionIsLocal(m, n, next, start);
      assert m[pos + 1..next] == n[pos + 1..next];
    }
  }

  function AnswerOf(name: Name, r: Record): Answer
    requires ValidRecord(r)
  {
    Answer(name, U16At(r.fixed, 0), U16At(r.fixed, 2), r.fixed[4..8], r.rdata)
  }

  function AnswersOf(name: Name, rs: seq<Record>): (answers: seq<Answer>)
    requires AllValid(rs)
    ensures |answers| == |rs|
  {
    seq(|rs|, i requires 0 <= i < |rs| => AnswerOf(name, rs[i]))
  }

  /** A record written with a pointer to the question is walked over. */
  lemma PointedWalked(m: seq<Byte>, pos: nat, r: Record, rest: seq<Byte>)
    requires pos <= |m| && ValidRecord(r) && m[pos..] == Pointed(r) + rest
    ensures var next := pos + |Pointed(r)|;
      next <= |m| && m[next..] == rest && RecordAt(m, pos) == Some((r, next))
  {
    PointedPieces(m, pos, r, rest);
    assert NameEnd(m, pos) == Some(pos + 2);
  }

  /** And it reads back, owned by the question's name. */
  lemma PointedReads(m: seq<Byte>, pos: nat, r: Record, next: nat, name: Name)
    requires QUESTION < pos && pos + 2 <= |m| && m[pos] == 0xc0 && m[pos + 1] == 0x0c
    requires RecordAt(m, pos) == Some((r, next))
    requires NameAt(m, QUESTION, QUESTION) == Some(name)
    ensures ReadAnswer(m, pos) == Some((AnswerOf(name, r), next))
  {
    PointerReads(m, pos, name);
    RecordReads(m, pos, r, next, name);
  }

  /** A record walked over reads as an answer, if its owner name reads. */
  lemma RecordReads(m: seq<Byte>, pos: nat, r: Record, next: nat, name: Name)
    requires RecordAt(m, pos) == Some((r, next))
    requires NameSpan(m, pos) == NameEnd(m, pos) && NameAt(m, pos, pos) == Some(name)
    ensures ReadAnswer(m, pos) == Some((AnswerOf(name, r), next))
  {
    FixedFields(m, NameEnd(m, pos).value, r.fixed);
  }

  lemma PointerReads(m: seq<Byte>, pos: nat, name: Name)
    requires QUESTION < pos && pos + 2 <= |m| && m[pos] == 0xc0 && m[pos + 1] == 0x0c
    requires NameAt(m, QUESTION, QUESTION) == Some(name)
    ensures NameSpan(m, pos) == NameEnd(m, pos) == Some(pos + 2) && NameAt(m, pos, pos) == Some(name)
  {
  }

  lemma PointerBytes(m: seq<Byte>, pos: nat, r: Record, rest: seq<Byte>)
    requires pos <= |m| && ValidRecord(r) && m[pos..] == Pointed(r) + rest
    ensures pos + 2 <= |m| && m[pos] == 0xc0 && m[pos + 1] == 0x0c
  {
    PointedPieces(m, pos, r, rest);
  }

  lemma FixedFields(m: seq<Byte>, at: nat, fixed: seq<Byte>)
    requires at + 10 <= |m| && m[at..at + 10] == fixed
    ensures U16At(m, at) == U16At(fixed, 0) && U16At(m, at + 2) == U16At(fixed, 2)
    ensures m[at + 4..at + 8] == fixed[4..8] && U16At(m, at + 8) == U16At(fixed, 8)
  {
    assert forall i :: 0 <= i < 10 ==> m[at + i] == fixed[i];
  }

  lemma PointedPieces(m: seq<Byte>, pos: nat, r: Record, rest: seq<Byte>)
    requires pos <= |m| && ValidRecord(r) && m[pos..] == Pointed(r) + rest
    ensures pos + 12 + |r.rdata| <= |m|
    ensures m[pos] == 0xc0 && m[pos + 1] == 0x0c
    ensures m[pos + 2..pos + 12] == r.fixed
    ensures m[pos + 12..pos + 12 + |r.rdata|] == r.rdata
    ensures m[pos + 12 + |r.rdata|..] == rest
  {
    var t := m[pos..];
    assert t[0] == 0xc0 && t[1] == 0x0c;
    assert t[2..12] == r.fixed;
    assert t[12..12 + |r.rdata|] == r.rdata;
    assert t[12 + |r.rdata|..] == rest;
  }

  /** So is a whole run of them, to the end of the message. */
  lemma {:induction false} PointedAllWalked(m: seq<Byte>, pos: nat, rs: seq<Record>)
    requires pos <= |m| && AllValid(rs) && m[pos..] == PointedAll(rs)
    ensures RecordsFrom(m, pos, |rs|) == Some(rs)
    decreases |rs|
  {
    if rs != [] {
      var next := pos + |Pointed(rs[0])|;
      PointedWalked(m, pos, rs[0], PointedAll(rs[1..]));
      PointedAllWalked(m, next, rs[1..]);
      RecordsCons(m, pos, |rs|, rs[0], next, rs[1..]);
      assert rs == [rs[0]] + rs[1..];
    }
  }

  lemma RecordsCons(m: seq<Byte>, pos: nat, count: nat, r: Record, next: nat, rest: seq<Record>)
    requires 0 < count && RecordAt(m, pos) == Some((r, next)) && RecordsFrom(m, next, count - 1) == Some(rest)
    ensures RecordsFrom(m, pos, count) == Some([r] + rest)
  {
  }

  lemma {:induction false} PointedAllReads(m: seq<Byte>, pos: nat, rs: seq<Record>, name: Name)
    requires QUESTION < pos <= |m| && AllValid(rs) && m[pos..] == PointedAll(rs)
    requires NameAt(m, QUESTION, QUESTION) == Some(name)
    ensures ReadAnswers(m, pos, |rs|) == Some((AnswersOf(name, rs), |m|))
    decreases |rs|
  {
    if rs != [] {
      var rest := rs[1..];
      var next := PointedOnce(m, pos, rs[0], PointedAll(rs[1..]), name);
      PointedAllReads(m, next, rest, name);
      PointedJoined(m, pos, rs[0], next, rest, name);
      assert rs == [rs[0]] + rest;
    }
  }

  lemma PointedJoined(m: seq<Byte>, pos: nat, r: Record, next: nat, rest: seq<Record>, name: Name)
    requires pos <= |m| && next <= |m| && ValidRecord(r) && AllValid(rest)
    requires ReadAnswer(m, pos) == Some((AnswerOf(name, r), next))
    requires ReadAnswers(m, next, |rest|) == Some((AnswersOf(name, rest), |m|))
    ensures ReadAnswers(m, pos, |rest| + 1) == Some((AnswersOf(name, [r] + rest), |m|))
  {
    AnswersCons(m, pos, |rest| + 1, AnswerOf(name, r), next, AnswersOf(name, rest), |m|);
    AnswersOfCons(name, r, rest);
  }

  lemma PointedOnce(m: seq<Byte>, pos: nat, r: Record, rest: seq<Byte>, name: Name) returns (next: nat)
    requires QUESTION < pos <= |m| && ValidRecord(r) && m[pos..] == Pointed(r) + rest
    requires NameAt(m, QUESTION, QUESTION) == Some(name)
    ensures pos < next <= |m| && m[next..] == rest
    ensures ReadAnswer(m, pos) == Some((AnswerOf(name, r), next))
  {
    next := pos + |Pointed(r)|;
    PointedWalked(m, pos, r, rest);
    PointerBytes(m, pos, r, rest);
    PointedReads(m, pos, r, next, name);
  }

  lemma AnswersCons(m: seq<Byte>, pos: nat, count: nat, a: Answer, next: nat, rest: seq<Answer>, end: nat)
    requires pos <= |m| && next <= |m| && 0 < count
    requires ReadAnswer(m, pos) == Some((a, next)) && ReadAnswers(m, next, count - 1) == Some((rest, end))
    ensures ReadAnswers(m, pos, count) == Some(([a] + rest, end))
  {
  }

  lemma {:induction false} AddressesAgain(rs: seq<Record>)
    requires AllValid(rs) && forall i :: 0 <= i < |rs| ==> IsAddress(rs[i])
    ensures Addresses(rs) == rs
  {
    if rs != [] {
      AddressesAgain(rs[1..]);
      assert rs == [rs[0]] + rs[1..];
    }
  }

  /** Where things are in a re-issued answer. */
  lemma ReissuedLayout(query: seq<Byte>, reply: seq<Byte>, out: seq<Byte>)
    requires AnswerAsAsked(query, reply) == Some(out)
    ensures var end, kept := QuestionEnd(query).value, Addresses(ReplyRecords(reply).value);
      && end <= |out| && out[end..] == PointedAll(kept)
      && out[QUESTION..end] == query[QUESTION..end]
      && out[..2] == query[..2] && out[2..4] == reply[2..4]
      && U16At(out, 4) == 1 && U16At(out, 6) == |kept| && U16At(out, 8) == 0 && U16At(out, 10) == 0
  {
    var end, kept := QuestionEnd(query).value, Addresses(ReplyRecords(reply).value);
    var h := Header(query[..2], reply[2..4], |kept|);
    assert out == h + (query[QUESTION..end] + PointedAll(kept));
    assert forall i :: 0 <= i < 12 ==> out[i] == h[i];
    assert out[..2] == h[..2] && out[2..4] == h[2..4];
    assert h[6] == Be16(|kept|)[0] && h[7] == Be16(|kept|)[1];
  }

  /** The question of a re-issued answer is the query's. */
  lemma ReissuedQuestion(query: seq<Byte>, reply: seq<Byte>, out: seq<Byte>)
    requires AnswerAsAsked(query, reply) == Some(out)
    ensures QuestionEnd(out) == QuestionEnd(query)
    ensures ReadQuestion(query).Some? && ReadQuestion(out) == ReadQuestion(query)
    ensures ReadQuestion(out).value.1 == QuestionEnd(query).value
  {
    ReissuedLayout(query, reply, out);
    var end := QuestionEnd(query).value;
    forall i | QUESTION <= i < end
      ensures query[i] == out[i]
    {
      assert query[QUESTION..end][i - QUESTION] == out[QUESTION..end][i - QUESTION];
    }
    QuestionIsName(query, QUESTION, QUESTION);
    QuestionIsLocal(query, out, QUESTION, QUESTION);
    QuestionIsName(out, QUESTION, QUESTION);
  }

  /** The re-issued answer as a resolver reads it: the query's id and question, the reply's flags, its addresses. */
  lemma ReissuedMessage(query: seq<Byte>, reply: seq<Byte>, out: seq<Byte>)
    requires AnswerAsAsked(query, reply) == Some(out)
    ensures ReadQuestion(query).Some?
    ensures var q := ReadQuestion(query).value.0;
      Read(out) == Some(Message(query[..2], reply[2..4], q,
                                AnswersOf(q.name, Addresses(ReplyRecords(reply).value)), 0, 0, []))
  {
    ReissuedLayout(query, reply, out);
    ReissuedQuestion(query, reply, out);
    var end := QuestionEnd(query).value;
    PointedAllReads(out, end, Addresses(ReplyRecords(reply).value), ReadQuestion(out).value.0.name);
    assert out[|out|..] == [];
  }

  /** Re-issuing a re-issued answer changes nothing. */
  lemma ReissueIsIdempotent(query: seq<Byte>, reply: seq<Byte>, out: seq<Byte>)
    requires AnswerAsAsked(query, reply) == Some(out)
    ensures AnswerAsAsked(query, out) == Some(out)
  {
    ReissuedLayout(query, reply, out);
    ReissuedQuestion(query, reply, out);
    var end, kept := QuestionEnd(query).value, Addresses(ReplyRecords(reply).value);
    PointedAllWalked(out, end, kept);
    AddressesAgain(kept);
  }

  predicate AnswerIsAddress(a: Answer) {
    a.rtype == TYPE_AAAA && |a.rdata| == 16
  }

  /** The addresses among a message's answers, under another name. */
  function Renamed(name: Name, answers: seq<Answer>): seq<Answer> {
    if answers == [] then []
    else (if AnswerIsAddress(answers[0]) then [answers[0].(name := name)] else []) + Renamed(name, answers[1..])
  }

  /** Wherever a name reads, the proxy's looser walk over it ends in the same place. */
  lemma {:induction false} NameEndAgrees(m: seq<Byte>, pos: nat)
    requires NameSpan(m, pos).Some?
    ensures NameEnd(m, pos) == NameSpan(m, pos)
    decreases |m| - pos
  {
    if m[pos] != 0 && m[pos] < 0x40 {
      NameEndAgrees(m, pos + 1 + m[pos]);
    }
  }

  lemma RecordAgrees(m: seq<Byte>, pos: nat)
    requires ReadAnswer(m, pos).Some?
    ensures var (a, next) := ReadAnswer(m, pos).value;
      RecordAt(m, pos).Some? && RecordAt(m, pos).value.1 == next && AnswerOf(a.name, RecordAt(m, pos).value.0) == a
  {
    NameEndAgrees(m, pos);
    var e := NameSpan(m, pos).value;
    FixedFields(m, e, m[e..e + 10]);
  }

  lemma {:induction false} RecordsAgree(m: seq<Byte>, pos: nat, count: nat, name: Name)
    requires pos <= |m| && ReadAnswers(m, pos, count).Some?
    ensures RecordsFrom(m, pos, count).Some?
    ensures AnswersOf(name, Addresses(RecordsFrom(m, pos, count).value))
      == Renamed(name, ReadAnswers(m, pos, count).value.0)
    decreases count
  {
    if count > 0 {
      RecordAgrees(m, pos);
      var (a, next) := ReadAnswer(m, pos).value;
      var r := RecordAt(m, pos).value.0;
      RecordsAgree(m, next, count - 1, name);
      var rest := RecordsFrom(m, next, count - 1).value;
      AddressesCons(r, rest);
      RenamedCons(name, a, ReadAnswers(m, next, count - 1).value.0);
      AnswersOfCons(name, r, Addresses(rest));
    }
  }

  lemma RenamedCons(name: Name, a: Answer, rest: seq<Answer>)
    ensures Renamed(name, [a] + rest) == (if AnswerIsAddress(a) then [a.(name := name)] else []) + Renamed(name, rest)
  {
    assert ([a] + rest)[1..] == rest;
  }

  lemma AnswersOfCons(name: Name, r: Record, rest: seq<Record>)
    requires ValidRecord(r) && AllValid(rest)
    ensures AnswersOf(name, [r] + rest) == [AnswerOf(name, r)] + AnswersOf(name, rest)
  {
  }

  /** The records of a message that reads are those the proxy walks over. */
  lemma ReadRecords(m: seq<Byte>, name: Name)
    requires QuestionEnd(m).Some? && Read(m).Some?
    ensures ReplyRecords(m).Some? && m[2..4] == Read(m).value.flags
    ensures AnswersOf(name, Addresses(ReplyRecords(m).value)) == Renamed(name, Read(m).value.answers)
  {
    QuestionIsName(m, QUESTION, QUESTION);
    RecordsAgree(m, QuestionEnd(m).value, U16At(m, 6), name);
  }

  /** A well-formed reply to a well-formed question is re-issued: its AAAA records, in order, under the asked name. */
  lemma ReplyIsReissued(query: seq<Byte>, reply: seq<Byte>)
    requires QuestionEnd(query).Some? && QuestionEnd(reply).Some? && Read(reply).Some?
    ensures AnswerAsAsked(query, reply).Some? && ReadQuestion(query).Some?
    ensures var q, r := ReadQuestion(query).value.0, Read(reply).value;
      Read(AnswerAsAsked(query, reply).value)
      == Some(Message(query[..2], r.flags, q, Renamed(q.name, r.answers), 0, 0, []))
  {
    ReadRecords(reply, []);
    var out := AnswerAsAsked(query, reply).value;
    ReissuedMessage(query, reply, out);
    ReadRecords(reply, ReadQuestion(query).value.0.name);
  }

  // ---------------------------------------------------------------------------------
  // Names as text, and the query for <npub>.fips
  // ---------------------------------------------------------------------------------

  const DOT: Byte := 46

  /** char::to_ascii_lowercase on the code point of an octet. */
  function Lower(b: Byte): Byte {
    if 65 <= b <= 90 then b + 32 else b
  }

  function LowerAll(s: seq<Byte>): (t: seq<Byte>)
    ensures |t| == |s|
  {
    seq(|s|, i requires 0 <= i < |s| => Lower(s[i]))
  }

  /** Octets of a string of such code points in UTF-8. */
  function Utf8Len(s: seq<Byte>): nat {
    if s == [] then 0 else (if s[0] < 0x80 then 1 else 2) + Utf8Len(s[1..])
  }

  /** `name` with a label put after it. */
  function WithLabel(name: seq<Byte>, part: seq<Byte>): seq<Byte> {
    (if name == [] then [] else name + [DOT]) + LowerAll(part)
  }

  /** parse_qname from offset `pos` on, `name` being what came before. */
  function QnameFrom(m: seq<Byte>, pos: nat, name: seq<Byte>): Option<seq<Byte>>
    decreases |m| - pos
  {
    if pos >= |m| then None
    else if m[pos] == 0 then Some(name)
    else if m[pos] >= 0x40 || Utf8Len(name) + m[pos] + 1 > 255 then None
    else if pos + 1 + m[pos] > |m| then None
    else QnameFrom(m, pos + 1 + m[pos], WithLabel(name, m[pos + 1..pos + 1 + m[pos]]))
  }

  function Qname(m: seq<Byte>): Option<seq<Byte>> {
    if |m| < 12 || U16At(m, 4) == 0 then None else QnameFrom(m, QUESTION, [])
  }

  method QnameLoop(message: seq<Byte>) returns (r: Option<seq<Byte>>)
    ensures r == Qname(message)
  {
    if |message| < 12 || U16At(message, 4) == 0 {
      return None;
    }
    var name: seq<Byte> := [];
    var pos := QUESTION;
    while true
      invariant Qname(message) == QnameFrom(message, pos, name)
      decreases |message| - pos
    {
      if pos >= |message| {
        return None;
      }
      var len := message[pos];
      if len == 0 {
        return Some(name);
      }
      if len >= 0x40 || Utf8Len(name) + len + 1 > 255 || pos + 1 + len > |message| {
        return None;
      }
      name := WithLabel(name, message[pos + 1..pos + 1 + len]);
      pos := pos + 1 + len;
    }
  }

  /** Labels joined with dots, in lower case, after `name`. */
  function JoinedAfter(name: seq<Byte>, labels: Name): seq<Byte>
    decreases |labels|
  {
    if labels == [] then name else JoinedAfter(WithLabel(name, labels[0]), labels[1..])
  }

  /** What parse_qname returns is the question's name as section 4.1.4 reads it, joined in lower case. */
  lemma {:induction false} QnameIsName(m: seq<Byte>, pos: nat, name: seq<Byte>, start: nat)
    requires QnameFrom(m, pos, name).Some?
    ensures NameAt(m, pos, start).Some?
    ensures QnameFrom(m, pos, name).value == JoinedAfter(name, NameAt(m, pos, start).value)
    decreases |m| - pos
  {
    if m[pos] != 0 {
      var part := m[pos + 1..pos + 1 + m[pos]];
      QnameIsName(m, pos + 1 + m[pos], WithLabel(name, part), start);
      var rest := NameAt(m, pos + 1 + m[pos], start).value;
      assert ([part] + rest)[1..] == rest;
    }
  }

  const FIPS: seq<Byte> := [102, 105, 112, 115]

  function NpubQuery(query: seq<Byte>, npub: seq<Byte>): (q: Option<seq<Byte>>)
    ensures q.None? <==> QuestionEnd(query).None? || npub == [] || |npub| > 63
  {
    var end := QuestionEnd(query);
    if end.None? || npub == [] || |npub| > 63 then None
    else Some(query[..4] + [0, 1, 0, 0, 0, 0, 0, 0] + [|npub|] + npub + ([4] + FIPS + [0])
              + query[end.value - 4..end.value])
  }

  /** The two labels of the re-asked name, where they stand. */
  lemma NpubLabels(m: seq<Byte>, npub: seq<Byte>, start: nat)
    requires 0 < |npub| <= 63 && QUESTION + |npub| + 11 == |m|
    requires m[QUESTION] == |npub| && m[QUESTION + 1..QUESTION + 1 + |npub|] == npub
    requires m[|m| - 10] == 4 && m[|m| - 9..|m| - 5] == FIPS && m[|m| - 5] == 0
    ensures NameAt(m, QUESTION, start) == Some([npub, FIPS])
    ensures NameSpan(m, QUESTION) == Some(|m| - 4)
    ensures QnameFrom(m, QUESTION, []) == Some(LowerAll(npub) + [DOT] + FIPS)
  {
    var second, zero := |m| - 10, |m| - 5;
    LabelReads(m, second, FIPS, start, [], zero + 1);
    assert [FIPS] + [] == [FIPS];
    LabelReads(m, QUESTION, npub, start, [FIPS], zero + 1);
    assert [npub] + [FIPS] == [npub, FIPS];
    var name := LowerAll(npub);
    Utf8Bound(name);
    assert [] + name == name;
    assert LowerAll(FIPS) == FIPS;
    QnameStep(m, QUESTION, npub, []);
    QnameStep(m, second, FIPS, name);
  }

  lemma QnameStep(m: seq<Byte>, pos: nat, part: seq<Byte>, name: seq<Byte>)
    requires 0 < |part| <= 63 && pos + 1 + |part| <= |m| && Utf8Len(name) + |part| + 1 <= 255
    requires m[pos] == |part| && m[pos + 1..pos + 1 + |part|] == part
    ensures QnameFrom(m, pos, name) == QnameFrom(m, pos + 1 + |part|, WithLabel(name, part))
  {
  }

  lemma LabelReads(m: seq<Byte>, pos: nat, part: seq<Byte>, start: nat, rest: Name, end: nat)
    requires 0 < |part| <= 63 && pos + 1 + |part| <= |m|
    requires m[pos] == |part| && m[pos + 1..pos + 1 + |part|] == part
    requires NameAt(m, pos + 1 + |part|, start) == Some(rest) && NameSpan(m, pos + 1 + |part|) == Some(end)
    ensures NameAt(m, pos, start) == Some([part] + rest) && NameSpan(m, pos) == Some(end)
  {
  }

  lemma {:induction false} Utf8Bound(s: seq<Byte>)
    ensures Utf8Len(s) <= 2 * |s|
  {
    if s != [] {
      Utf8Bound(s[1..]);
    }
  }

  /** The re-asked query reads as one question for <npub>.fips, id, flags, type and class unchanged. */
  lemma NpubQueryReads(query: seq<Byte>, npub: seq<Byte>)
    requires NpubQuery(query, npub).Some?
    ensures ReadQuestion(query).Some?
    ensures var m, q := NpubQuery(query, npub).value, ReadQuestion(query).value.0;
      && Read(m) == Some(Message(query[..2], query[2..4], Question([npub, FIPS], q.qtype, q.qclass), [], 0, 0, []))
      && Qname(m) == Some(LowerAll(npub) + [DOT] + FIPS)
  {
    var end, m := QuestionEnd(query).value, NpubQuery(query, npub).value;
    QuestionIsName(query, QUESTION, QUESTION);
    NpubLayout(query, npub);
    NpubLabels(m, npub, QUESTION);
    assert m[|m|..] == [];
  }

  /** Where things are in the re-asked query. */
  lemma NpubLayout(query: seq<Byte>, npub: seq<Byte>)
    requires NpubQuery(query, npub).Some?
    ensures var m, end := NpubQuery(query, npub).value, QuestionEnd(query).value;
      && |m| == QUESTION + |npub| + 11
      && m[..2] == query[..2] && m[2..4] == query[2..4]
      && U16At(m, 4) == 1 && U16At(m, 6) == 0 && U16At(m, 8) == 0 && U16At(m, 10) == 0
      && m[QUESTION] == |npub| && m[QUESTION + 1..QUESTION + 1 + |npub|] == npub
      && m[|m| - 10] == 4 && m[|m| - 9..|m| - 5] == FIPS && m[|m| - 5] == 0
      && U16At(m, |m| - 4) == U16At(query, end - 4) && U16At(m, |m| - 2) == U16At(query, end - 2)
  {
    var end, m := QuestionEnd(query).value, NpubQuery(query, npub).value;
    var front, back := query[..4] + [0, 1, 0, 0, 0, 0, 0, 0], [4] + FIPS + [0] + query[end - 4..end];
    assert m == front + [|npub|] + npub + back;
    Inside(front, [|npub|], npub + back, m);
    Inside(front + [|npub|], npub, back, m);
    Inside(front + [|npub|] + npub, back, [], m);
    NpubFront(m, query, front);
    NpubBack(m, query, end, back);
  }

  lemma Inside(before: seq<Byte>, part: seq<Byte>, after: seq<Byte>, m: seq<Byte>)
    requires m == before + part + after
    ensures |m| == |before| + |part| + |after| && m[|before|..|before| + |part|] == part
  {
  }

  lemma NpubFront(m: seq<Byte>, query: seq<Byte>, front: seq<Byte>)
    requires |query| >= 4 && front == query[..4] + [0, 1, 0, 0, 0, 0, 0, 0]
    requires 12 <= |m| && front <= m
    ensures m[..2] == query[..2] && m[2..4] == query[2..4]
    ensures U16At(m, 4) == 1 && U16At(m, 6) == 0 && U16At(m, 8) == 0 && U16At(m, 10) == 0
  {
    assert forall i :: 0 <= i < 12 ==> m[i] == front[i];
  }

  lemma NpubBack(m: seq<Byte>, query: seq<Byte>, end: nat, back: seq<Byte>)
    requires 4 <= end <= |query| && back == [4] + FIPS + [0] + query[end - 4..end]
    requires 10 <= |m| && m[|m| - 10..] == back
    ensures m[|m| - 10] == 4 && m[|m| - 9..|m| - 5] == FIPS && m[|m| - 5] == 0
    ensures U16At(m, |m| - 4) == U16At(query, end - 4) && U16At(m, |m| - 2) == U16At(query, end - 2)
  {
    var n := |m| - 10;
    assert forall i :: 0 <= i < 10 ==> m[n + i] == back[i];
    assert m[n] == back[0];
    assert m[n + 1..n + 5] == back[1..5] == FIPS;
    assert m[n + 5] == back[5];
    assert m[n + 6] == back[6] == query[end - 4] && m[n + 7] == back[7] == query[end - 3];
    assert m[n + 8] == back[8] == query[end - 2] && m[n + 9] == back[9] == query[end - 1];
  }

  // ---------------------------------------------------------------------------------
  // SERVFAIL
  // ---------------------------------------------------------------------------------

  /** The flag fields of the header, section 4.1.1. */
  predicate Qr(high: Byte) { high >= 0x80 }

  predicate Aa(high: Byte) { high / 4 % 2 == 1 }

  function Opcode(high: Byte): nat { high / 8 % 16 }

  function Rcode(low: Byte): nat { low % 16 }

  function SetQr(high: Byte): (r: Byte)
    ensures Qr(r) && Opcode(r) == Opcode(high)
  {
    if Qr(high) then high else high + 0x80
  }

  function ClearAa(high: Byte): (r: Byte)
    ensures !Aa(r) && r / 8 == high / 8 && r % 4 == high % 4
  {
    if Aa(high) then high - 4 else high
  }

  function Servfail(query: seq<Byte>): (r: seq<Byte>)
    requires |query| >= 12
    ensures |r| == |query|
  {
    query[..2] + [ClearAa(SetQr(query[2])), query[3] / 16 * 16 + 2] + query[4..6] + [0, 0, 0, 0, 0, 0] + query[12..]
  }

  /** The query's bytes, edited in place. */
  method ServfailFor(query: seq<Byte>) returns (r: Option<seq<Byte>>)
    ensures r == if |query| < 12 then None else Some(Servfail(query))
  {
    if |query| < 12 {
      return None;
    }
    var response := query;
    response := response[2 := SetQr(response[2])];
    response := response[2 := ClearAa(response[2])];
    response := response[3 := response[3] / 16 * 16 + 2];
    response := response[6 := 0][7 := 0];
    response := response[8 := 0][9 := 0];
    response := response[10 := 0][11 := 0];
    assert response == Servfail(query);
    r := Some(response);
  }

  /** The error is a response with RCODE 2, in which the query's question reads as before and nothing is answered. */
  lemma ServfailReads(query: seq<Byte>)
    requires QuestionEnd(query).Some?
    ensures var e := Servfail(query);
      && e[..2] == query[..2] && U16At(e, 4) == U16At(query, 4)
      && Qr(e[2]) && !Aa(e[2]) && Opcode(e[2]) == Opcode(query[2]) && Rcode(e[3]) == 2
      && ReadQuestion(query).Some? && ReadQuestion(e) == ReadQuestion(query)
      && U16At(e, 6) == 0 && U16At(e, 8) == 0 && U16At(e, 10) == 0
  {
    var e := Servfail(query);
    assert forall i :: 12 <= i < |query| ==> query[i] == e[i];
    QuestionIsName(query, QUESTION, QUESTION);
    QuestionIsLocal(query, e, QUESTION, QUESTION);
    QuestionIsName(e, QUESTION, QUESTION);
    ServfailHeader(query);
    assert ClearAa(SetQr(query[2])) / 8 == SetQr(query[2]) / 8;
  }

  lemma ServfailHeader(query: seq<Byte>)
    requires |query| >= 12
    ensures var e := Servfail(query);
      && e[..2] == query[..2] && U16At(e, 4) == U16At(query, 4)
      && e[2] == ClearAa(SetQr(query[2])) && e[3] == query[3] / 16 * 16 + 2
      && U16At(e, 6) == 0 && U16At(e, 8) == 0 && U16At(e, 10) == 0
  {
    var e := Servfail(query);
    assert e[4] == query[4] && e[5] == query[5];
    assert e[6] == 0 && e[7] == 0 && e[8] == 0 && e[9] == 0 && e[10] == 0 && e[11] == 0;
  }
}
