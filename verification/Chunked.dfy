/** Chunked response bodies, section 7.1 of RFC 9112. */
module Chunked {
  import opened Bytes

  datatype Error = CutShort | BadSize

  datatype Result = Ok(body: seq<Byte>) | Err(error: Error)

  const CRLF: seq<Byte> := [13, 10]
  const SEMICOLON: Byte := 59
  const PLUS: Byte := 43

  /** usize of the 64-bit builds. */
  const USIZE_MAX: nat := 0xffff_ffff_ffff_ffff

  // ---------------------------------------------------------------------------------
  // The size line
  // ---------------------------------------------------------------------------------

  /** Position of the first CR LF. */
  function FindCrlf(s: seq<Byte>): (at: Option<nat>)
    ensures at.Some? ==> at.value + 2 <= |s|
  {
    if |s| < 2 then None
    else if s[..2] == CRLF then Some(0)
    else
      var rest := FindCrlf(s[1..]);
      if rest.None? then None else Some(rest.value + 1)
  }

  /** What comes before the first `;`. */
  function BeforeSemicolon(s: seq<Byte>): seq<Byte> {
    if s == [] || s[0] == SEMICOLON then [] else [s[0]] + BeforeSemicolon(s[1..])
  }

  predicate IsWhite(b: Byte) { 9 <= b <= 13 || b == 32 }

  function DropLeading(s: seq<Byte>): seq<Byte> {
    if s != [] && IsWhite(s[0]) then DropLeading(s[1..]) else s
  }

  function DropTrailing(s: seq<Byte>): seq<Byte> {
    if s != [] && IsWhite(s[|s| - 1]) then DropTrailing(s[..|s| - 1]) else s
  }

  function DigitValue(b: Byte): (v: Option<nat>)
    ensures v.Some? ==> v.value < 16
  {
    if 48 <= b <= 57 then Some(b - 48)
    else if 65 <= b <= 70 then Some(b - 55)
    else if 97 <= b <= 102 then Some(b - 87)
    else None
  }

  /** The number the digits spell, most significant first. */
  function DigitsValue(s: seq<Byte>): Option<nat> {
    if s == [] then Some(0)
    else
      var high, low := DigitsValue(s[..|s| - 1]), DigitValue(s[|s| - 1]);
      if high.None? || low.None? then None else Some(high.value * 16 + low.value)
  }

  /** usize::from_str_radix(s, 16): a leading plus is let through, an empty or too large number is not. */
  function FromHex(s: seq<Byte>): Option<nat> {
    var digits := if s != [] && s[0] == PLUS then s[1..] else s;
    if digits == [] || DigitsValue(digits).None? || DigitsValue(digits).value > USIZE_MAX then None
    else DigitsValue(digits)
  }

  function SizeOf(line: seq<Byte>): Option<nat> {
    FromHex(DropTrailing(DropLeading(BeforeSemicolon(line))))
  }

  // ---------------------------------------------------------------------------------
  // Decoding
  // ---------------------------------------------------------------------------------

  function Dechunk(raw: seq<Byte>): Result
    decreases |raw|
  {
    var at := FindCrlf(raw);
    if at.None? then Err(CutShort)
    else
      var size, rest := SizeOf(raw[..at.value]), raw[at.value + 2..];
      if size.None? then Err(BadSize)
      else if size.value == 0 then Ok([])
      else if |rest| < size.value + 2 then Err(CutShort)
      else
        var tail := Dechunk(rest[size.value + 2..]);
        if tail.Err? then tail else Ok(rest[..size.value] + tail.body)
  }

  method DechunkLoop(input: seq<Byte>) returns (r: Result)
    ensures r == Dechunk(input)
  {
    var raw := input;
    var out: seq<Byte> := [];
    while true
      invariant Dechunk(input) == if Dechunk(raw).Err? then Dechunk(raw) else Ok(out + Dechunk(raw).body)
      decreases |raw|
    {
      var lineEnd := FindCrlf(raw);
      if lineEnd.None? {
        return Err(CutShort);
      }
      var size := SizeOf(raw[..lineEnd.value]);
      if size.None? {
        return Err(BadSize);
      }
      ghost var whole := raw;
      raw := raw[lineEnd.value + 2..];
      if size.value == 0 {
        assert Dechunk(whole) == Ok([]);
        assert out + [] == out;
        return Ok(out);
      }
      if |raw| < size.value {
        return Err(CutShort);
      }
      var chunk := raw[..size.value];
      if |raw| < size.value + 2 {
        return Err(CutShort);
      }
      raw := raw[size.value + 2..];
      assert Dechunk(raw).Ok? ==> out + (chunk + Dechunk(raw).body) == (out + chunk) + Dechunk(raw).body;
      out := out + chunk;
    }
  }

  // ---------------------------------------------------------------------------------
  // Encodings
  // ---------------------------------------------------------------------------------

  /** One chunk on the wire: size line, CR LF, data, and the two octets after it. */
  datatype Chunk = Chunk(line: seq<Byte>, data: seq<Byte>, end: seq<Byte>)

  predicate LineFor(line: seq<Byte>, size: nat) {
    FindCrlf(line).None? && SizeOf(line) == Some(size)
  }

  ghost predicate WellFormed(c: Chunk) {
    c.data != [] && LineFor(c.line, |c.data|) && |c.end| == 2
  }

  ghost predicate AllWellFormed(chunks: seq<Chunk>) {
    forall i :: 0 <= i < |chunks| ==> WellFormed(chunks[i])
  }

  function OnWire(c: Chunk): seq<Byte> {
    c.line + CRLF + c.data + c.end
  }

  function Encode(chunks: seq<Chunk>, last: seq<Byte>): seq<Byte> {
    if chunks == [] then last + CRLF else OnWire(chunks[0]) + Encode(chunks[1..], last)
  }

  function Body(chunks: seq<Chunk>): seq<Byte> {
    if chunks == [] then [] else chunks[0].data + Body(chunks[1..])
  }

  /** The CR LF that ends a line is the first one. */
  lemma {:induction false} LineEnds(line: seq<Byte>, rest: seq<Byte>)
    requires FindCrlf(line).None?
    ensures FindCrlf(line + CRLF + rest) == Some(|line|)
    decreases |line|
  {
    var s := line + CRLF + rest;
    if line == [] {
      assert s[..2] == CRLF;
    } else {
      assert s[1..] == line[1..] + CRLF + rest;
      if |line| >= 2 {
        assert s[..2] == line[..2];
      } else {
        assert s[..2][1] == 13;
      }
      LineEnds(line[1..], rest);
    }
  }

  /** No line cut before its CR LF is complete has one. */
  lemma {:induction false} CutLineHasNoEnd(line: seq<Byte>, k: nat)
    requires FindCrlf(line).None? && k < |line| + 2
    ensures FindCrlf((line + CRLF)[..k]).None?
    decreases |line|
  {
    var s := (line + CRLF)[..k];
    if line != [] && 2 <= k {
      assert s[1..] == (line[1..] + CRLF)[..k - 1];
      if |line| >= 2 {
        assert s[..2] == line[..2];
      } else {
        assert s[..2][1] == 13;
      }
      CutLineHasNoEnd(line[1..], k - 1);
    }
  }

  lemma DechunkOne(c: Chunk, rest: seq<Byte>)
    requires WellFormed(c)
    ensures Dechunk(OnWire(c) + rest)
         == if Dechunk(rest).Err? then Dechunk(rest) else Ok(c.data + Dechunk(rest).body)
  {
    var raw := OnWire(c) + rest;
    assert raw == c.line + CRLF + (c.data + c.end + rest);
    LineEnds(c.line, c.data + c.end + rest);
    assert raw[..|c.line|] == c.line;
    assert raw[|c.line| + 2..] == c.data + c.end + rest;
    assert (c.data + c.end + rest)[..|c.data|] == c.data;
    assert (c.data + c.end + rest)[|c.data| + 2..] == rest;
  }

  /** Decoding inverts every encoding, whatever trails the last chunk. */
  lemma {:induction false} DechunkInverts(chunks: seq<Chunk>, last: seq<Byte>, trailer: seq<Byte>)
    requires AllWellFormed(chunks) && LineFor(last, 0)
    ensures Dechunk(Encode(chunks, last) + trailer) == Ok(Body(chunks))
    decreases |chunks|
  {
    if chunks == [] {
      LineEnds(last, trailer);
      assert (last + CRLF + trailer)[..|last|] == last;
    } else {
      var rest := Encode(chunks[1..], last) + trailer;
      assert Encode(chunks, last) + trailer == OnWire(chunks[0]) + rest;
      assert WellFormed(chunks[0]);
      DechunkOne(chunks[0], rest);
      DechunkInverts(chunks[1..], last, trailer);
    }
  }

  /** And nothing else decodes: an accepted body is some encoding of itself. */
  lemma {:induction false} AcceptedIsEncoded(raw: seq<Byte>)
      returns (chunks: seq<Chunk>, last: seq<Byte>, trailer: seq<Byte>)
    requires Dechunk(raw).Ok?
    ensures AllWellFormed(chunks) && LineFor(last, 0)
    ensures raw == Encode(chunks, last) + trailer && Dechunk(raw) == Ok(Body(chunks))
    decreases |raw|
  {
    var at := SizeLine(raw);
    if SizeOf(raw[..at]).value == 0 {
      chunks, last, trailer := [], raw[..at], raw[at + 2..];
    } else {
      var c, tail := FirstChunk(raw, at);
      var more;
      more, last, trailer := AcceptedIsEncoded(tail);
      chunks := [c] + more;
      EncodeCons(c, more, last, trailer);
    }
  }

  lemma EncodeCons(c: Chunk, more: seq<Chunk>, last: seq<Byte>, trailer: seq<Byte>)
    ensures Encode([c] + more, last) + trailer == OnWire(c) + (Encode(more, last) + trailer)
    ensures Body([c] + more) == c.data + Body(more)
    ensures WellFormed(c) && AllWellFormed(more) ==> AllWellFormed([c] + more)
  {
    assert ([c] + more)[1..] == more;
  }

  /** An accepted input starts with a size line. */
  lemma SizeLine(raw: seq<Byte>) returns (at: nat)
    requires Dechunk(raw).Ok?
    ensures FindCrlf(raw) == Some(at) && SizeOf(raw[..at]).Some?
    ensures raw == raw[..at] + CRLF + raw[at + 2..] && FindCrlf(raw[..at]).None?
  {
    at := FindCrlf(raw).value;
    FirstCrlf(raw);
  }

  /** It goes on with its chunk, and then with an input that is accepted too. */
  lemma FirstChunk(raw: seq<Byte>, at: nat) returns (c: Chunk, tail: seq<Byte>)
    requires Dechunk(raw).Ok? && FindCrlf(raw) == Some(at)
    requires SizeOf(raw[..at]).Some? && SizeOf(raw[..at]).value != 0
    ensures WellFormed(c) && raw == OnWire(c) + tail && |tail| < |raw|
    ensures Dechunk(tail).Ok? && Dechunk(raw).body == c.data + Dechunk(tail).body
  {
    FirstCrlf(raw);
    OpenChunk(raw, at);
    var size, line, rest := SizeOf(raw[..at]).value, raw[..at], raw[at + 2..];
    c, tail := Chunk(line, rest[..size], rest[size..size + 2]), rest[size + 2..];
    Pieces(line + CRLF, rest, size);
  }

  /** What decoding did with it. */
  lemma OpenChunk(raw: seq<Byte>, at: nat)
    requires Dechunk(raw).Ok? && FindCrlf(raw) == Some(at)
    requires SizeOf(raw[..at]).Some? && SizeOf(raw[..at]).value != 0
    ensures var size, rest := SizeOf(raw[..at]).value, raw[at + 2..];
      && size + 2 <= |rest| && Dechunk(rest[size + 2..]).Ok?
      && Dechunk(raw).body == rest[..size] + Dechunk(rest[size + 2..]).body
  {
  }

  lemma Pieces(line: seq<Byte>, rest: seq<Byte>, size: nat)
    requires size + 2 <= |rest|
    ensures line + rest == line + rest[..size] + rest[size..size + 2] + rest[size + 2..]
  {
    assert rest == rest[..size] + (rest[size..size + 2] + rest[size + 2..]);
  }

  lemma {:induction false} FirstCrlf(s: seq<Byte>)
    requires FindCrlf(s).Some?
    ensures var at := FindCrlf(s).value;
      at + 2 <= |s| && s == s[..at] + CRLF + s[at + 2..] && FindCrlf(s[..at]).None?
    decreases |s|
  {
    if s[..2] != CRLF {
      var at := FindCrlf(s[1..]).value;
      FirstCrlf(s[1..]);
      assert s[..at + 1][1..] == s[1..][..at];
      assert s == [s[0]] + s[1..];
      assert s[1..][at + 2..] == s[at + 3..];
      assert s[..at + 1] == [s[0]] + s[1..][..at];
      if at + 1 >= 2 {
        assert s[..at + 1][..2] == s[..2];
      }
    }
  }

  /** An encoding cut anywhere before the end of its last-chunk line is an error, never a shorter body. */
  lemma {:induction false} CutIsError(chunks: seq<Chunk>, last: seq<Byte>, k: nat)
    requires AllWellFormed(chunks) && LineFor(last, 0)
    requires k < |Encode(chunks, last)|
    ensures Dechunk(Encode(chunks, last)[..k]) == Err(CutShort)
    decreases |chunks|
  {
    if chunks == [] {
      CutLineHasNoEnd(last, k);
    } else {
      var c, rest := chunks[0], Encode(chunks[1..], last);
      assert WellFormed(c);
      var s := Encode(chunks, last)[..k];
      if k < |c.line| + 2 {
        assert s == (c.line + CRLF)[..k];
        CutLineHasNoEnd(c.line, k);
      } else if k < |OnWire(c)| {
        CutInData(c, k);
        assert s == OnWire(c)[..k];
      } else {
        CutIsError(chunks[1..], last, k - |OnWire(c)|);
        assert s == OnWire(c) + rest[..k - |OnWire(c)|];
        DechunkOne(c, rest[..k - |OnWire(c)|]);
      }
    }
  }

  lemma CutInData(c: Chunk, k: nat)
    requires WellFormed(c) && |c.line| + 2 <= k < |OnWire(c)|
    ensures Dechunk(OnWire(c)[..k]) == Err(CutShort)
  {
    var s, rest := OnWire(c)[..k], OnWire(c)[|c.line| + 2..k];
    assert s == c.line + CRLF + rest;
    LineEnds(c.line, rest);
    assert s[..|c.line|] == c.line && s[|c.line| + 2..] == rest;
  }

  // ---------------------------------------------------------------------------------
  // Every size has its lines: hex digits in any case, an extension or none
  // ---------------------------------------------------------------------------------

  /** A hex digit, a letter in the case asked for. */
  function HexDigit(d: nat, upper: bool): (b: Byte)
    requires d < 16
    ensures DigitValue(b) == Some(d)
  {
    if d < 10 then 48 + d else if upper then 55 + d else 87 + d
  }

  /** `n` in hex; `upper` says of each digit which case it takes. */
  function Hex(n: nat, upper: nat -> bool): (s: seq<Byte>)
    ensures s != [] && DigitsValue(s) == Some(n)
    ensures forall i :: 0 <= i < |s| ==> DigitValue(s[i]).Some?
  {
    var low := [HexDigit(n % 16, upper(n))];
    if n < 16 then
      assert low[..0] == [];
      low
    else
      var high := Hex(n / 16, upper);
      assert (high + low)[..|high + low| - 1] == high;
      high + low
  }

  lemma {:induction false} BeforeExtension(digits: seq<Byte>, ext: seq<Byte>)
    requires forall i :: 0 <= i < |digits| ==> DigitValue(digits[i]).Some?
    requires ext == [] || ext[0] == SEMICOLON
    ensures BeforeSemicolon(digits + ext) == digits
    decreases |digits|
  {
    if digits == [] {
      assert digits + ext == ext;
    } else {
      assert (digits + ext)[1..] == digits[1..] + ext;
      BeforeExtension(digits[1..], ext);
    }
  }

  lemma {:induction false} NoCrlfInDigits(digits: seq<Byte>, ext: seq<Byte>)
    requires forall i :: 0 <= i < |digits| ==> DigitValue(digits[i]).Some?
    requires FindCrlf(ext).None?
    ensures FindCrlf(digits + ext).None?
    decreases |digits|
  {
    if digits == [] {
      assert digits + ext == ext;
    } else {
      var s := digits + ext;
      assert s[1..] == digits[1..] + ext;
      NoCrlfInDigits(digits[1..], ext);
      if |s| >= 2 {
        assert s[..2][0] == digits[0];
        assert DigitValue(13) == None;
      }
    }
  }

  lemma EverySizeHasLines(n: nat, upper: nat -> bool, ext: seq<Byte>)
    requires n <= USIZE_MAX
    requires ext == [] || ext[0] == SEMICOLON
    requires FindCrlf(ext).None?
    ensures LineFor(Hex(n, upper) + ext, n)
  {
    var digits := Hex(n, upper);
    BeforeExtension(digits, ext);
    NoCrlfInDigits(digits, ext);
    DigitsAreTaken(digits);
  }

  /** Digits are not trimmed and start with no plus. */
  lemma DigitsAreTaken(digits: seq<Byte>)
    requires digits != [] && forall i :: 0 <= i < |digits| ==> DigitValue(digits[i]).Some?
    requires DigitsValue(digits).Some? && DigitsValue(digits).value <= USIZE_MAX
    ensures FromHex(DropTrailing(DropLeading(digits))) == DigitsValue(digits)
  {
    assert DigitValue(digits[0]).Some? && DigitValue(digits[|digits| - 1]).Some?;
    assert DropLeading(digits) == digits;
    assert DropTrailing(digits) == digits;
  }
}
