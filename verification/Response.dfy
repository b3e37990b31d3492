/** When a response read off the mesh may be taken as whole: before the far side closes, or only after. */
module Response {
  import opened AsciiText
  import opened Bytes
  import opened Chunked

  const BLANK_LINE: seq<Byte> := [13, 10, 13, 10]

  datatype Parsed = Reply(status: nat, body: seq<Byte>) | Failed(error: ParseError)

  datatype ParseError = NoHeader | NotHttp | BodyCutShort | BadChunkSize

  // ---------------------------------------------------------------------------------
  // The header block as text
  // ---------------------------------------------------------------------------------

  /** One character for each octet; which one stands for an octet outside ASCII makes no difference here. */
  function TextOf(octets: seq<Byte>): (t: string)
    ensures |t| == |octets|
  {
    seq(|octets|, i requires 0 <= i < |octets| => octets[i] as char)
  }

  function Find(s: string, c: char): (at: nat)
    ensures at <= |s| && (at < |s| ==> s[at] == c)
  {
    if s == "" || s[0] == c then 0 else 1 + Find(s[1..], c)
  }

  function WithoutCr(s: string): string {
    if s != "" && s[|s| - 1] == '\r' then s[..|s| - 1] else s
  }

  /** str::lines: a final line feed starts no line. */
  function Lines(s: string): seq<string>
    decreases |s|
  {
    if s == "" then []
    else
      var n := Find(s, '\n');
      if n == |s| then [s] else [WithoutCr(s[..n])] + Lines(s[n + 1..])
  }

  /** A line's field name and value, if it is `name`'s. */
  function FieldValue(line: string, name: string): Option<string> {
    var colon := Find(line, ':');
    if colon < |line| && LowerAll(Trim(line[..colon])) == name then Some(Trim(line[colon + 1..])) else None
  }

  function FirstValue(lines: seq<string>, name: string): Option<string> {
    if lines == [] then None
    else
      var v := FieldValue(lines[0], name);
      if v.Some? then v else FirstValue(lines[1..], name)
  }

  /** header_value; `name` is in lower case. */
  function HeaderValue(head: seq<Byte>, name: string): Option<string> {
    var lines := Lines(TextOf(head));
    if lines == [] then None else FirstValue(lines[1..], name)
  }

  function DecimalValue(s: string): Option<nat> {
    if s == "" then Some(0)
    else
      var high, c := DecimalValue(s[..|s| - 1]), s[|s| - 1];
      if high.None? || !('0' <= c <= '9') then None else Some(high.value * 10 + (c - '0') as nat)
  }

  /** str::parse of an unsigned number up to `max`. */
  function ParseNumber(s: string, max: nat): Option<nat> {
    var digits := if s != "" && s[0] == '+' then s[1..] else s;
    if digits == "" || DecimalValue(digits).None? || DecimalValue(digits).value > max then None
    else DecimalValue(digits)
  }

  function ContentLength(head: seq<Byte>): Option<nat> {
    var v := HeaderValue(head, "content-length");
    if v.None? then None else ParseNumber(v.value, USIZE_MAX)
  }

  predicate Contains(s: string, part: string) {
    part <= s || (s != "" && Contains(s[1..], part))
  }

  predicate IsChunked(head: seq<Byte>) {
    var v := HeaderValue(head, "transfer-encoding");
    v.Some? && Contains(LowerAll(v.value), "chunked")
  }

  const VERSION: string := "HTTP/1."

  function StatusOf(line: string): Option<nat> {
    if !(VERSION <= line) || |line| < |VERSION| + 5 then None
    else ParseNumber(line[|VERSION| + 2..|VERSION| + 5], 0xffff)
  }

  function Status(head: seq<Byte>): Option<nat> {
    var lines := Lines(TextOf(head));
    if lines == [] then None else StatusOf(lines[0])
  }

  // ---------------------------------------------------------------------------------
  // The response
  // ---------------------------------------------------------------------------------

  /** The offset after the first blank line. */
  function HeaderEnd(data: seq<Byte>): (end: Option<nat>)
    ensures end.Some? ==> 4 <= end.value <= |data|
  {
    if |data| < 4 then None
    else if data[..4] == BLANK_LINE then Some(4)
    else
      var rest := HeaderEnd(data[1..]);
      if rest.None? then None else Some(rest.value + 1)
  }

  /** A Content-Length response whose body has arrived. */
  predicate IsComplete(data: seq<Byte>) {
    var end := HeaderEnd(data);
    && end.Some?
    && var length := ContentLength(data[..end.value]);
       length.Some? && |data| >= end.value + length.value
  }

  function ParseResponse(data: seq<Byte>): Parsed {
    var end := HeaderEnd(data);
    if end.None? then Failed(NoHeader)
    else
      var head, raw := data[..end.value], data[end.value..];
      var status := Status(head);
      if status.None? then Failed(NotHttp) else ParseBody(status.value, IsChunked(head), ContentLength(head), raw)
  }

  function ParseBody(status: nat, chunked: bool, length: Option<nat>, raw: seq<Byte>): Parsed {
    if chunked then OfChunks(status, Dechunk(raw))
    else if length.None? then Reply(status, raw)
    else if |raw| < length.value then Failed(BodyCutShort)
    else Reply(status, raw[..length.value])
  }

  function OfChunks(status: nat, r: Result): Parsed {
    match r
    case Ok(body) => Reply(status, body)
    case Err(CutShort) => Failed(BodyCutShort)
    case Err(BadSize) => Failed(BadChunkSize)
  }

  // ---------------------------------------------------------------------------------
  // What more octets can change
  // ---------------------------------------------------------------------------------

  lemma {:induction false} HeaderStays(data: seq<Byte>, more: seq<Byte>)
    requires HeaderEnd(data).Some?
    ensures HeaderEnd(data + more) == HeaderEnd(data)
  {
    assert (data + more)[..4] == data[..4];
    if data[..4] != BLANK_LINE {
      assert (data + more)[1..] == data[1..] + more;
      HeaderStays(data[1..], more);
    }
  }

  lemma {:induction false} LineStays(s: seq<Byte>, more: seq<Byte>)
    requires FindCrlf(s).Some?
    ensures FindCrlf(s + more) == FindCrlf(s)
  {
    assert (s + more)[..2] == s[..2];
    if s[..2] != CRLF {
      assert (s + more)[1..] == s[1..] + more;
      LineStays(s[1..], more);
    }
  }

  /** One whole chunk decoded, and the rest. */
  lemma ChunkThenRest(raw: seq<Byte>, at: nat, n: nat)
    requires FindCrlf(raw) == Some(at) && SizeOf(raw[..at]) == Some(n) && 0 < n && at + 2 + n + 2 <= |raw|
    ensures var rest := raw[at + 2..];
      var tail := Dechunk(rest[n + 2..]);
      Dechunk(raw) == if tail.Err? then tail else Ok(rest[..n] + tail.body)
  {
  }

  /** A size line that ends the body, well or badly. */
  lemma NoChunk(raw: seq<Byte>, at: nat)
    requires FindCrlf(raw) == Some(at) && (SizeOf(raw[..at]).None? || SizeOf(raw[..at]).value == 0)
    ensures Dechunk(raw) == if SizeOf(raw[..at]).None? then Err(BadSize) else Ok([])
  {
  }

  /** The first line stays what it is, and what follows it only gets longer. */
  lemma FirstLineStays(raw: seq<Byte>, more: seq<Byte>, at: nat)
    requires FindCrlf(raw) == Some(at)
    ensures FindCrlf(raw + more) == Some(at)
    ensures (raw + more)[..at] == raw[..at] && (raw + more)[at + 2..] == raw[at + 2..] + more
  {
    LineStays(raw, more);
  }

  lemma ChunkStays(rest: seq<Byte>, more: seq<Byte>, n: nat)
    requires n + 2 <= |rest|
    ensures (rest + more)[..n] == rest[..n] && (rest + more)[n + 2..] == rest[n + 2..] + more
  {
  }

  /** A chunked body that decodes, or has a bad size, does so whatever follows. */
  lemma {:induction false} DecodedStays(raw: seq<Byte>, more: seq<Byte>)
    requires Dechunk(raw) != Err(CutShort)
    ensures Dechunk(raw + more) == Dechunk(raw)
    decreases |raw|
  {
    var at := FindCrlf(raw).value;
    var size, rest := SizeOf(raw[..at]), raw[at + 2..];
    FirstLineStays(raw, more, at);
    if size.None? || size.value == 0 {
      NoChunk(raw, at);
      NoChunk(raw + more, at);
    } else {
      var n := size.value;
      ChunkThenRest(raw, at, n);
      ChunkStays(rest, more, n);
      DecodedStays(rest[n + 2..], more);
      ChunkThenRest(raw + more, at, n);
    }
  }

  const LAST: seq<Byte> := [48, 13, 10]

  lemma LastDecodes()
    ensures Dechunk(LAST) == Ok([])
  {
    assert LAST[..2][0] == 48 && CRLF[0] == 13;
    assert LAST[1..] == CRLF && CRLF[..2] == CRLF;
    assert FindCrlf(LAST[1..]) == Some(0);
    assert FindCrlf(LAST) == Some(1);
    assert LAST[..1] == [48];
    ZeroLine();
  }

  lemma ZeroLine()
    ensures SizeOf([48]) == Some(0)
  {
    var s: seq<Byte> := [48];
    assert BeforeSemicolon(s[1..]) == [];
    assert BeforeSemicolon(s) == s;
    assert DropLeading(s) == s && DropTrailing(s) == s;
    assert s[..0] == [] && DigitsValue(s[..0]) == Some(0);
    assert DigitsValue(s) == Some(0);
  }

  function Zeros(n: nat): (z: seq<Byte>)
    ensures |z| == n
  {
    seq(n, i => 0)
  }

  /** Data enough for a chunk of `n` octets at `rest`, and the last chunk behind it. */
  lemma Padded(raw: seq<Byte>, at: nat, n: nat, rest: seq<Byte>, pad: seq<Byte>)
    requires FindCrlf(raw) == Some(at) && SizeOf(raw[..at]) == Some(n) && 0 < n
    requires raw[at + 2..] == rest + pad + LAST && |rest| + |pad| == n + 2
    ensures Dechunk(raw).Ok?
  {
    var all := raw[at + 2..];
    assert all[n + 2..] == LAST;
    LastDecodes();
  }

  /** A body cut short can always go on so that it is not. */
  lemma {:induction false} CutCanGoOn(raw: seq<Byte>) returns (more: seq<Byte>)
    requires Dechunk(raw) == Err(CutShort)
    ensures Dechunk(raw + more) != Err(CutShort)
    decreases |raw|
  {
    var at := FindCrlf(raw);
    if at.None? {
      more := FinishLine(raw);
    } else {
      var n, rest := SizeOf(raw[..at.value]).value, raw[at.value + 2..];
      if |rest| < n + 2 {
        more := FinishChunk(raw, at.value, n, rest);
      } else {
        more := CutCanGoOn(rest[n + 2..]);
        GoneOn(raw, at.value, n, more);
      }
    }
  }

  lemma FinishChunk(raw: seq<Byte>, at: nat, n: nat, rest: seq<Byte>) returns (more: seq<Byte>)
    requires FindCrlf(raw) == Some(at) && SizeOf(raw[..at]) == Some(n) && 0 < n && rest == raw[at + 2..]
    requires |rest| < n + 2
    ensures Dechunk(raw + more) != Err(CutShort)
  {
    var pad := Zeros(n + 2 - |rest|);
    more := pad + LAST;
    FirstLineStays(raw, more, at);
    assert rest + more == rest + pad + LAST;
    Padded(raw + more, at, n, rest, pad);
  }

  lemma GoneOn(raw: seq<Byte>, at: nat, n: nat, more: seq<Byte>)
    requires FindCrlf(raw) == Some(at) && SizeOf(raw[..at]) == Some(n) && 0 < n && at + 2 + n + 2 <= |raw|
    requires Dechunk(raw[at + 2..][n + 2..] + more) != Err(CutShort)
    ensures Dechunk(raw + more) != Err(CutShort)
  {
    FirstLineStays(raw, more, at);
    ChunkStays(raw[at + 2..], more, n);
    ChunkThenRest(raw + more, at, n);
  }

  lemma FinishLine(raw: seq<Byte>) returns (more: seq<Byte>)
    requires FindCrlf(raw).None?
    ensures Dechunk(raw + more) != Err(CutShort)
  {
    var size := SizeOf(raw);
    var n := if size.Some? then size.value else 0;
    var behind := Zeros(n + 2) + LAST;
    more := CRLF + behind;
    LineFinished(raw, behind);
    if 0 < n {
      assert [] + Zeros(n + 2) == Zeros(n + 2);
      Padded(raw + more, |raw|, n, [], Zeros(n + 2));
    } else {
      NoChunk(raw + more, |raw|);
    }
  }

  lemma LineFinished(raw: seq<Byte>, behind: seq<Byte>)
    requires FindCrlf(raw).None?
    ensures var s := raw + (CRLF + behind);
      FindCrlf(s) == Some(|raw|) && s[..|raw|] == raw && s[|raw| + 2..] == behind
  {
    Parts(raw, CRLF, behind);
    LineEnds(raw, behind);
  }

  lemma Parts(a: seq<Byte>, b: seq<Byte>, c: seq<Byte>)
    ensures var s := a + (b + c); s == a + b + c && s[..|a|] == a && s[|a| + |b|..] == c
  {
  }

  // ---------------------------------------------------------------------------------
  // Main result
  // ---------------------------------------------------------------------------------

  /** Chunks that are not all there yet behind the header block. */
  predicate ChunksMissing(data: seq<Byte>) {
    var end := HeaderEnd(data);
    && end.Some?
    && Status(data[..end.value]).Some? && IsChunked(data[..end.value])
    && Dechunk(data[end.value..]) == Err(CutShort)
  }

  /** Taking a response as whole by its Content-Length is final exactly if no chunk is missing: a response that is
      chunked besides may be given up as cut short although the rest would have come. */
  lemma EarlyFinishIff(data: seq<Byte>)
    requires IsComplete(data)
    ensures (forall more :: ParseResponse(data + more) == ParseResponse(data)) <==> !ChunksMissing(data)
  {
    if ChunksMissing(data) {
      var more := MissingChunksMatter(data);
      assert ParseResponse(data + more) != ParseResponse(data);
    } else {
      forall more
        ensures ParseResponse(data + more) == ParseResponse(data)
      {
        CompleteStays(data, more);
      }
    }
  }

  /** More octets change nothing but the body. */
  lemma SameHead(data: seq<Byte>, more: seq<Byte>)
    requires HeaderEnd(data).Some?
    ensures var end := HeaderEnd(data).value;
      && HeaderEnd(data + more) == Some(end) && (data + more)[..end] == data[..end]
      && (data + more)[end..] == data[end..] + more
  {
    HeaderStays(data, more);
  }

  lemma BodyStays(status: nat, chunked: bool, length: Option<nat>, raw: seq<Byte>, more: seq<Byte>)
    requires length.Some? && length.value <= |raw| && (chunked ==> Dechunk(raw) != Err(CutShort))
    ensures ParseBody(status, chunked, length, raw + more) == ParseBody(status, chunked, length, raw)
  {
    if chunked {
      DecodedStays(raw, more);
    } else {
      assert (raw + more)[..length.value] == raw[..length.value];
    }
  }

  lemma CompleteStays(data: seq<Byte>, more: seq<Byte>)
    requires IsComplete(data) && !ChunksMissing(data)
    ensures ParseResponse(data + more) == ParseResponse(data)
  {
    SameHead(data, more);
    var end := HeaderEnd(data).value;
    var head := data[..end];
    if Status(head).Some? {
      BodyStays(Status(head).value, IsChunked(head), ContentLength(head), data[end..], more);
    }
  }

  lemma MissingChunksMatter(data: seq<Byte>) returns (more: seq<Byte>)
    requires ChunksMissing(data)
    ensures ParseResponse(data) == Failed(BodyCutShort) && ParseResponse(data + more) != Failed(BodyCutShort)
  {
    more := CutCanGoOn(data[HeaderEnd(data).value..]);
    SameHead(data, more);
  }

  // ---------------------------------------------------------------------------------
  // Header blocks as servers write them
  // ---------------------------------------------------------------------------------

  function OctetsOf(s: string): (octets: seq<Byte>)
    requires IsAscii(s)
    ensures |octets| == |s|
  {
    seq(|s|, i requires 0 <= i < |s| => s[i] as int)
  }

  predicate IsAscii(s: string) { forall i :: 0 <= i < |s| ==> s[i] < 128 as char }

  /** A line that can stand in a header block. */
  predicate IsLine(l: string) {
    l != "" && IsAscii(l) && forall i :: 0 <= i < |l| ==> l[i] != '\r' && l[i] != '\n'
  }

  predicate AreLines(ls: seq<string>) { forall i :: 0 <= i < |ls| ==> IsLine(ls[i]) }

  /** The lines, each ended, and the blank line. */
  function HeadText(ls: seq<string>): (t: string)
    requires AreLines(ls)
    ensures IsAscii(t)
  {
    if ls == [] then "\r\n" else ls[0] + "\r\n" + HeadText(ls[1..])
  }

  function Head(ls: seq<string>): seq<Byte>
    requires AreLines(ls)
  {
    OctetsOf(HeadText(ls))
  }

  lemma TextOfOctets(s: string)
    requires IsAscii(s)
    ensures TextOf(OctetsOf(s)) == s
  {
  }

  lemma {:induction false} FindSkips(s: string, rest: string, c: char)
    requires forall i :: 0 <= i < |s| ==> s[i] != c
    ensures Find(s + [c] + rest, c) == |s|
    decreases |s|
  {
    if s == "" {
      assert s + [c] + rest == [c] + rest;
    } else {
      assert (s + [c] + rest)[1..] == s[1..] + [c] + rest;
      FindSkips(s[1..], rest, c);
    }
  }

  lemma LinesCons(l: string, rest: string)
    requires IsLine(l)
    ensures Lines(l + "\r\n" + rest) == [l] + Lines(rest)
  {
    var cr := l + "\r";
    var s := cr + ['\n'] + rest;
    assert s == l + "\r\n" + rest;
    FindSkips(cr, rest, '\n');
    assert s[..|cr|] == cr && s[|cr| + 1..] == rest && cr[..|cr| - 1] == l;
  }

  lemma BlankLines()
    ensures Lines("\r\n") == [""]
  {
    var s := "\r\n";
    FindSkips("\r", "", '\n');
    assert "\r" + ['\n'] + "" == s;
    assert s[..1] == "\r" && s[2..] == "" && "\r"[..0] == "";
    assert Lines(s[2..]) == [];
  }

  lemma {:induction false} LinesOfHead(ls: seq<string>)
    requires AreLines(ls)
    ensures Lines(HeadText(ls)) == ls + [""]
    decreases |ls|
  {
    if ls == [] {
      BlankLines();
      assert [""] == ls + [""];
    } else {
      var rest := HeadText(ls[1..]);
      LinesOfHead(ls[1..]);
      LinesCons(ls[0], rest);
      Rejoined(ls);
    }
  }

  lemma Rejoined(ls: seq<string>)
    requires ls != []
    ensures [ls[0]] + (ls[1..] + [""]) == ls + [""]
  {
  }

  lemma NotBlank(s: seq<Byte>, i: nat)
    requires 4 <= |s| && i < 4 && s[i] != BLANK_LINE[i]
    ensures s[..4] != BLANK_LINE
  {
    assert s[..4][i] == s[i];
  }

  /** No blank line begins inside a line, nor at its end if another line follows. */
  lemma {:induction false} EndPastLine(l: seq<Byte>, rest: seq<Byte>)
    requires forall i :: 0 <= i < |l| ==> l[i] != 13
    requires |rest| >= 2 && rest[0] != 13 && HeaderEnd(rest).Some?
    ensures HeaderEnd(l + CRLF + rest) == Some(|l| + 2 + HeaderEnd(rest).value)
    decreases |l|
  {
    var s := l + CRLF + rest;
    if l == [] {
      NotBlank(s, 2);
      NotBlank(s[1..], 0);
      assert s[1..][1..] == rest;
    } else {
      NotBlank(s, 0);
      assert s[1..] == l[1..] + CRLF + rest;
      EndPastLine(l[1..], rest);
    }
  }

  lemma {:induction false} EndAtBlank(l: seq<Byte>, rest: seq<Byte>)
    requires forall i :: 0 <= i < |l| ==> l[i] != 13
    requires |rest| >= 2 && rest[0] == 13 && rest[1] == 10
    ensures HeaderEnd(l + CRLF + rest) == Some(|l| + 4)
    decreases |l|
  {
    var s := l + CRLF + rest;
    if l == [] {
      assert s[..4] == BLANK_LINE;
    } else {
      NotBlank(s, 0);
      assert s[1..] == l[1..] + CRLF + rest;
      EndAtBlank(l[1..], rest);
    }
  }

  lemma HeadCons(ls: seq<string>)
    requires AreLines(ls) && ls != []
    ensures var l := OctetsOf(ls[0]);
      l != [] && Head(ls) == l + CRLF + Head(ls[1..]) && forall i :: 0 <= i < |l| ==> l[i] != 13
  {
    assert IsLine(ls[0]);
    assert "\r"[0] as int == 13 && "\n"[0] as int == 10;
  }

  /** The header block ends where its writer ended it. */
  lemma {:induction false} HeadEnds(ls: seq<string>, body: seq<Byte>)
    requires AreLines(ls) && ls != []
    ensures HeaderEnd(Head(ls) + body) == Some(|Head(ls)|)
    decreases |ls|
  {
    HeadCons(ls);
    var l, more := OctetsOf(ls[0]), Head(ls[1..]);
    Regroup(l, more, body);
    if |ls| == 1 {
      NoLines();
      EndAtBlank(l, more + body);
    } else {
      HeadEnds(ls[1..], body);
      HeadCons(ls[1..]);
      EndPastLine(l, more + body);
    }
  }

  lemma Regroup(l: seq<Byte>, more: seq<Byte>, body: seq<Byte>)
    ensures l + CRLF + more + body == l + CRLF + (more + body)
  {
  }

  lemma NoLines()
    ensures Head([]) == CRLF
  {
  }

  /** A written response as it is read: its block, its lines, its body. */
  lemma WrittenReads(ls: seq<string>, body: seq<Byte>)
    requires AreLines(ls) && ls != []
    ensures var data, end := Head(ls) + body, |Head(ls)|;
      && HeaderEnd(data) == Some(end) && data[..end] == Head(ls) && data[end..] == body
      && Status(Head(ls)) == StatusOf(ls[0])
  {
    HeadEnds(ls, body);
    TextOfOctets(HeadText(ls));
    LinesOfHead(ls);
  }

  lemma WrittenValue(ls: seq<string>, name: string)
    requires AreLines(ls) && ls != []
    ensures HeaderValue(Head(ls), name) == FirstValue(ls[1..] + [""], name)
  {
    TextOfOctets(HeadText(ls));
    LinesOfHead(ls);
    assert (ls + [""])[1..] == ls[1..] + [""];
  }

  // ---------------------------------------------------------------------------------
  // A response that is given up although it would have come
  // ---------------------------------------------------------------------------------

  /** A chunked body behind a Content-Length short of it: taken as whole too early, and then given up as cut short. */
  lemma TakenTooEarly(ls: seq<string>, chunks: seq<Chunk>, last: seq<Byte>, status: nat, length: nat)
    requires AreLines(ls) && ls != [] && AllWellFormed(chunks) && LineFor(last, 0)
    requires StatusOf(ls[0]) == Some(status) && IsChunked(Head(ls)) && ContentLength(Head(ls)) == Some(length)
    requires length < |Encode(chunks, last)|
    ensures var early := Head(ls) + Encode(chunks, last)[..length];
      && IsComplete(early) && ChunksMissing(early) && ParseResponse(early) == Failed(BodyCutShort)
    ensures ParseResponse(Head(ls) + Encode(chunks, last)) == Reply(status, Body(chunks))
  {
    var body := Encode(chunks, last);
    WrittenParses(ls, body[..length], status);
    CutIsError(chunks, last, length);
    WrittenParses(ls, body, status);
    DechunkInverts(chunks, last, []);
    assert body + [] == body;
  }

  /** What a written response parses to, by what its block says. */
  lemma WrittenParses(ls: seq<string>, body: seq<Byte>, status: nat)
    requires AreLines(ls) && ls != [] && StatusOf(ls[0]) == Some(status)
    ensures ParseResponse(Head(ls) + body) == ParseBody(status, IsChunked(Head(ls)), ContentLength(Head(ls)), body)
    ensures IsComplete(Head(ls) + body) <==>
      ContentLength(Head(ls)).Some? && |body| >= ContentLength(Head(ls)).value
    ensures ChunksMissing(Head(ls) + body) <==> IsChunked(Head(ls)) && Dechunk(body) == Err(CutShort)
  {
    WrittenReads(ls, body);
  }

  const STATUS_LINE: string := "HTTP/1.1 200 OK"
  const LENGTH_LINE: string := "Content-Length: 5"
  const CHUNKED_LINE: string := "Transfer-Encoding: chunked"

  /** A field written the usual way. */
  lemma FieldReads(key: string, value: string, name: string)
    requires key != "" && value != "" && !IsSpace(key[0]) && !IsSpace(key[|key| - 1])
    requires !IsSpace(value[0]) && !IsSpace(value[|value| - 1])
    requires forall i :: 0 <= i < |key| ==> key[i] != ':'
    ensures FieldValue(key + ": " + value, name) == if LowerAll(key) == name then Some(value) else None
  {
    var line := key + [':'] + (" " + value);
    assert line == key + ": " + value;
    FindSkips(key, " " + value, ':');
    assert line[..|key|] == key && line[|key| + 1..] == " " + value;
    TrimWhole(key);
    TrimWhole(value);
    assert (" " + value)[1..] == value;
    assert TrimStart(" " + value) == TrimStart(value) == value;
  }

  lemma LengthLineReads(name: string)
    ensures FieldValue(LENGTH_LINE, name) == if name == "content-length" then Some("5") else None
  {
    assert LowerAll("Content-Length") == "content-length";
    FieldReads("Content-Length", "5", name);
    assert LENGTH_LINE == "Content-Length" + ": " + "5";
  }

  lemma ChunkedLineReads(name: string)
    ensures FieldValue(CHUNKED_LINE, name) == if name == "transfer-encoding" then Some("chunked") else None
  {
    assert LowerAll("Transfer-Encoding") == "transfer-encoding";
    FieldReads("Transfer-Encoding", "chunked", name);
    assert CHUNKED_LINE == "Transfer-Encoding" + ": " + "chunked";
  }

  lemma StatusLineReads()
    ensures StatusOf(STATUS_LINE) == Some(200)
  {
    var s := STATUS_LINE[|VERSION| + 2..|VERSION| + 5];
    assert s == "200" && s[..2] == "20" && s[..2][..1] == "2" && s[..2][..1][..0] == "";
    assert DecimalValue("") == Some(0);
    assert DecimalValue(s[..2][..1]) == Some(2);
    assert DecimalValue(s[..2]) == Some(20);
    assert DecimalValue(s) == Some(200);
  }

  lemma FiveReads()
    ensures ParseNumber("5", USIZE_MAX) == Some(5)
  {
    assert "5"[..0] == "" && DecimalValue("") == Some(0);
    assert DecimalValue("5") == Some(5);
  }

  lemma ExampleLines()
    ensures AreLines([STATUS_LINE, LENGTH_LINE, CHUNKED_LINE])
  {
    StatusIsLine();
    LengthIsLine();
    ChunkedIsLine();
  }

  lemma StatusIsLine()
    ensures IsLine(STATUS_LINE)
  {
  }

  lemma LengthIsLine()
    ensures IsLine(LENGTH_LINE)
  {
  }

  lemma ChunkedIsLine()
    ensures IsLine(CHUNKED_LINE)
  {
  }

  lemma FirstSkips(ls: seq<string>, name: string)
    requires ls != [] && FieldValue(ls[0], name).None?
    ensures FirstValue(ls, name) == FirstValue(ls[1..], name)
  {
  }

  lemma ExampleFields()
    ensures FirstValue([LENGTH_LINE, CHUNKED_LINE, ""], "content-length") == Some("5")
    ensures FirstValue([LENGTH_LINE, CHUNKED_LINE, ""], "transfer-encoding") == Some("chunked")
  {
    var fields := [LENGTH_LINE, CHUNKED_LINE, ""];
    LengthLineReads("content-length");
    assert FieldValue(fields[0], "content-length") == Some("5");
    LengthLineReads("transfer-encoding");
    assert "content-length"[0] != "transfer-encoding"[0];
    FirstSkips(fields, "transfer-encoding");
    ChunkedLineReads("transfer-encoding");
    assert fields[1..][0] == CHUNKED_LINE;
  }

  lemma ContainsItself(s: string)
    ensures Contains(s, s)
  {
  }

  lemma ChunkedSaysSo()
    ensures Contains(LowerAll("chunked"), "chunked")
  {
    assert LowerAll("chunked") == "chunked";
    ContainsItself("chunked");
  }

  lemma SaysLength(head: seq<Byte>, value: string, length: nat)
    requires HeaderValue(head, "content-length") == Some(value) && ParseNumber(value, USIZE_MAX) == Some(length)
    ensures ContentLength(head) == Some(length)
  {
  }

  lemma SaysChunked(head: seq<Byte>, coding: string)
    requires HeaderValue(head, "transfer-encoding") == Some(coding) && Contains(LowerAll(coding), "chunked")
    ensures IsChunked(head)
  {
  }

  lemma HeadSays(ls: seq<string>, fields: seq<string>, status: nat, value: string, length: nat, coding: string)
    requires AreLines(ls) && ls != [] && fields == ls[1..] + [""] && StatusOf(ls[0]) == Some(status)
    requires FirstValue(fields, "content-length") == Some(value) && ParseNumber(value, USIZE_MAX) == Some(length)
    requires FirstValue(fields, "transfer-encoding") == Some(coding) && Contains(LowerAll(coding), "chunked")
    ensures Status(Head(ls)) == Some(status) && ContentLength(Head(ls)) == Some(length) && IsChunked(Head(ls))
  {
    var head := Head(ls);
    WrittenReads(ls, []);
    WrittenValue(ls, "content-length");
    WrittenValue(ls, "transfer-encoding");
    SaysLength(head, value, length);
    SaysChunked(head, coding);
  }

  lemma ExampleHead()
    ensures AreLines([STATUS_LINE, LENGTH_LINE, CHUNKED_LINE])
    ensures var head := Head([STATUS_LINE, LENGTH_LINE, CHUNKED_LINE]);
      Status(head) == Some(200) && ContentLength(head) == Some(5) && IsChunked(head)
  {
    var ls := [STATUS_LINE, LENGTH_LINE, CHUNKED_LINE];
    ExampleLines();
    StatusLineReads();
    FiveReads();
    ChunkedSaysSo();
    ExampleFields();
    assert ls[1..] + [""] == [LENGTH_LINE, CHUNKED_LINE, ""];
    HeadSays(ls, [LENGTH_LINE, CHUNKED_LINE, ""], 200, "5", 5, "chunked");
  }

  /** "5\r\nhello\r\n0\r\n" */
  const HELLO: Chunk := Chunk([53], [104, 101, 108, 108, 111], CRLF)

  lemma HelloIsWellFormed()
    ensures WellFormed(HELLO) && LineFor([48], 0) && LineFor([53], 5)
  {
    ZeroLine();
    var s: seq<Byte> := [53];
    assert BeforeSemicolon(s[1..]) == [];
    assert BeforeSemicolon(s) == s;
    assert DropLeading(s) == s && DropTrailing(s) == s;
    assert s[..0] == [] && DigitsValue(s[..0]) == Some(0);
    assert DigitsValue(s) == Some(5);
  }

  lemma HelloEncodes()
    ensures Encode([HELLO], [48]) == [53, 13, 10, 104, 101, 108, 108, 111, 13, 10, 48, 13, 10]
    ensures Body([HELLO]) == [104, 101, 108, 108, 111]
  {
    assert [HELLO][1..] == [];
    assert Encode([HELLO], [48]) == OnWire(HELLO) + ([48] + CRLF);
    assert Body([HELLO]) == HELLO.data + Body([]);
  }

  /** Such a response, octet by octet: whole by its length after five octets of body, a reply after eight more. */
  lemma BothHeadersFail() returns (data: seq<Byte>, more: seq<Byte>)
    ensures IsComplete(data) && ParseResponse(data) == Failed(BodyCutShort)
    ensures ParseResponse(data + more) == Reply(200, [104, 101, 108, 108, 111])
  {
    ExampleHead();
    StatusLineReads();
    HelloIsWellFormed();
    HelloEncodes();
    var head, body := Head([STATUS_LINE, LENGTH_LINE, CHUNKED_LINE]), Encode([HELLO], [48]);
    TakenTooEarly([STATUS_LINE, LENGTH_LINE, CHUNKED_LINE], [HELLO], [48], 200, 5);
    RestJoins(head, body, 5);
    data, more := head + body[..5], body[5..];
  }

  lemma RestJoins(head: seq<Byte>, body: seq<Byte>, n: nat)
    requires n <= |body|
    ensures head + body[..n] + body[n..] == head + body
  {
  }
}
