/** The mesh-names file: the user's own entries and one block synced from another node, in one text. */
module HostsText {
  import opened AsciiText
  import opened Bytes

  datatype Host = Host(name: string, npub: string)

  /** A synced block; the label only shows in its first line. */
  datatype Block = Block(master: string, labelled: Option<string>, hosts: seq<Host>)

  // ---------------------------------------------------------------------------------
  // Text and lines
  // ---------------------------------------------------------------------------------

  predicate Blank(s: string) { Trim(s) == "" }

  /** Length of the first line of `t`, its terminator left out. */
  function FirstLine(t: string): (n: nat)
    ensures n <= |t|
  {
    if t == "" || t[0] == '\n' || t[0] == '\r' then 0 else 1 + FirstLine(t[1..])
  }

  function Terminator(t: string, n: nat): (k: nat)
    requires n < |t|
    ensures 0 < k && n + k <= |t|
  {
    if t[n] == '\r' && n + 1 < |t| && t[n + 1] == '\n' then 2 else 1
  }

  /** Kotlin's String.lines(): any of the three terminators; what follows the last one is a line too. */
  function Lines(t: string): (ls: seq<string>)
    ensures |ls| > 0
    decreases |t|
  {
    var n := FirstLine(t);
    if n == |t| then [t] else [t[..n]] + Lines(t[n + Terminator(t, n)..])
  }

  /** Lines as the store reads them: without the empty one after a final terminator. */
  function FileLines(t: string): seq<string> {
    var ls := Lines(t);
    if ls[|ls| - 1] == "" then ls[..|ls| - 1] else ls
  }

  function Text(ls: seq<string>): string {
    if ls == [] then "" else ls[0] + "\n" + Text(ls[1..])
  }

  predicate OneLine(s: string) { forall i :: 0 <= i < |s| ==> s[i] != '\n' && s[i] != '\r' }

  predicate AllOneLine(ls: seq<string>) { forall i :: 0 <= i < |ls| ==> OneLine(ls[i]) }

  lemma {:induction false} FirstLineOf(s: string, rest: string)
    requires OneLine(s)
    ensures FirstLine(s + "\n" + rest) == |s|
  {
    var t := s + "\n" + rest;
    if s != "" {
      assert t[1..] == s[1..] + "\n" + rest;
      FirstLineOf(s[1..], rest);
    }
  }

  lemma LinesCons(s: string, rest: string)
    requires OneLine(s)
    ensures Lines(s + "\n" + rest) == [s] + Lines(rest)
  {
    var t := s + "\n" + rest;
    FirstLineOf(s, rest);
    assert t[..|s|] == s && t[|s|] == '\n' && t[|s| + 1..] == rest;
  }

  lemma {:induction false} LinesOfText(ls: seq<string>)
    requires AllOneLine(ls)
    ensures Lines(Text(ls)) == ls + [""]
    decreases |ls|
  {
    if ls == [] {
      assert Lines("") == [""];
    } else {
      var rest := ls[1..];
      LinesOfText(rest);
      LinesCons(ls[0], Text(rest));
      Rejoined(ls);
    }
  }

  lemma Rejoined(ls: seq<string>)
    requires ls != []
    ensures [ls[0]] + (ls[1..] + [""]) == ls + [""]
  {
  }

  /** What is written reads back line by line. */
  lemma FileLinesOfText(ls: seq<string>)
    requires AllOneLine(ls)
    ensures FileLines(Text(ls)) == ls
  {
    LinesOfText(ls);
    assert (ls + [""])[..|ls|] == ls;
  }

  /** So different lines are different texts. */
  lemma TextInjective(a: seq<string>, b: seq<string>)
    requires AllOneLine(a) && AllOneLine(b) && Text(a) == Text(b)
    ensures a == b
  {
    FileLinesOfText(a);
    FileLinesOfText(b);
  }

  // ---------------------------------------------------------------------------------
  // The synced block in the lines
  // ---------------------------------------------------------------------------------

  const BEGIN: string := "# >>> fips-ui sync from "
  /** In parts short enough for the verifier to look at every character. */
  const MANAGED: string := ": managed by fips2go, " + EDITS
  const EDITS: string := "edits here are replaced " + "on the next sync"
  const END: string := "# <<< fips-ui sync"

  predicate IsBech32Char(c: char) {
    c == '0' || '2' <= c <= '9' || c == 'a' || 'c' <= c <= 'h' || 'j' <= c <= 'n' || 'p' <= c <= 'z'
  }

  predicate IsMaster(s: string) {
    |s| == 63 && s[..5] == "npub1" && forall i :: 5 <= i < 63 ==> IsBech32Char(s[i])
  }

  predicate IsWord(c: char) { 'a' <= c <= 'z' || 'A' <= c <= 'Z' || '0' <= c <= '9' || c == '_' }

  /** A word boundary after the first `n` characters, the last of which is a word character. */
  predicate EndsWord(s: string, n: nat)
    requires n <= |s|
  {
    n == |s| || !IsWord(s[n])
  }

  /** The master named by a line, if it begins a block. */
  function MasterOf(line: string): Option<string> {
    var t := Trim(line);
    var n := |BEGIN| + 63;
    if BEGIN <= t && n <= |t| && IsMaster(t[|BEGIN|..n]) && EndsWord(t, n) then Some(t[|BEGIN|..n]) else None
  }

  predicate Begins(line: string) { MasterOf(line).Some? }

  predicate Ends(line: string) {
    var t := Trim(line);
    END <= t && EndsWord(t, |END|)
  }

  /** The first line from `i` on that begins a block, or |ls|. */
  function BeginFrom(ls: seq<string>, i: nat): (k: nat)
    requires i <= |ls|
    ensures i <= k <= |ls| && (k < |ls| ==> Begins(ls[k]))
    decreases |ls| - i
  {
    if i == |ls| || Begins(ls[i]) then i else BeginFrom(ls, i + 1)
  }

  /** The first line from `i` on that ends one, or the last line. */
  function EndFrom(ls: seq<string>, i: nat): (k: nat)
    requires 0 < i <= |ls|
    ensures i - 1 <= k < |ls|
    decreases |ls| - i
  {
    if i == |ls| then |ls| - 1 else if Ends(ls[i]) then i else EndFrom(ls, i + 1)
  }

  datatype Split = Split(local: seq<string>, block: Option<seq<string>>, master: Option<string>)

  function SplitLines(ls: seq<string>): Split {
    var start := BeginFrom(ls, 0);
    if start == |ls| then Split(ls, None, None)
    else
      var end := EndFrom(ls, start + 1);
      var before := if 0 < start && Blank(ls[start - 1]) then start - 1 else start;
      Split(ls[..before] + ls[end + 1..], Some(ls[start..end + 1]), MasterOf(ls[start]))
  }

  // ---------------------------------------------------------------------------------
  // Entries
  // ---------------------------------------------------------------------------------

  predicate IsNameChar(c: char) { 'a' <= c <= 'z' || 'A' <= c <= 'Z' || '0' <= c <= '9' || c == '-' }

  /** nameError finds nothing wrong. */
  predicate ValidName(name: string) {
    && 0 < |name| <= 63
    && !("npub1" <= LowerAll(name))
    && name[0] != '-' && name[|name| - 1] != '-'
    && forall i :: 0 <= i < |name| ==> IsNameChar(name[i])
  }

  function WordEnd(s: string): (n: nat)
    ensures n <= |s| && NoSpace(s[..n]) && (n < |s| ==> IsSpace(s[n]))
  {
    if s == "" || IsSpace(s[0]) then 0
    else
      var n := WordEnd(s[1..]);
      assert s[..1 + n] == [s[0]] + s[1..][..n];
      1 + n
  }

  /** A trimmed line split at its runs of white space. */
  function Fields(s: string): (fs: seq<string>)
    ensures |fs| > 0
    decreases |s|
  {
    var n := WordEnd(s);
    if n == |s| then [s] else [s[..n]] + Fields(TrimStart(s[n + 1..]))
  }

  function Entry(line: string): Option<Host> {
    var t := Trim(line);
    if t == "" || t[0] == '#' then None
    else
      var fields := Fields(t);
      if |fields| != 2 || !ValidName(fields[0]) then None else Some(Host(LowerAll(fields[0]), fields[1]))
  }

  function Without(hosts: seq<Host>, name: string): (r: seq<Host>)
    ensures |r| <= |hosts|
  {
    if hosts == [] then []
    else (if hosts[0].name == name then [] else [hosts[0]]) + Without(hosts[1..], name)
  }

  /** A LinkedHashMap entry removed and put again. */
  function Put(hosts: seq<Host>, h: Host): seq<Host> { Without(hosts, h.name) + [h] }

  function ParseOnto(hosts: seq<Host>, ls: seq<string>): seq<Host>
    decreases |ls|
  {
    if ls == [] then hosts
    else
      var e := Entry(ls[0]);
      ParseOnto(if e.None? then hosts else Put(hosts, e.value), ls[1..])
  }

  function Parse(ls: seq<string>): seq<Host> { ParseOnto([], ls) }

  // ---------------------------------------------------------------------------------
  // What the store writes
  // ---------------------------------------------------------------------------------

  function HostLine(h: Host): string { h.name + " " + h.npub }

  function HostLines(hosts: seq<Host>): (ls: seq<string>)
    ensures |ls| == |hosts|
  {
    seq(|hosts|, i requires 0 <= i < |hosts| => HostLine(hosts[i]))
  }

  function BeginLine(master: string, labelled: Option<string>): string {
    BEGIN + master + Tail(labelled)
  }

  /** The rest of a block's first line, behind the master. */
  function Tail(labelled: Option<string>): string {
    if labelled.None? then MANAGED else " (" + labelled.value + ")" + MANAGED
  }

  function BlockLines(b: Block): seq<string> {
    [BeginLine(b.master, b.labelled)] + HostLines(b.hosts) + [END]
  }

  /** The lines of the file for these entries and this block. */
  function Canonical(local: seq<Host>, synced: Option<Block>): seq<string> {
    HostLines(local) + After(synced)
  }

  /** What it has behind the user's lines. */
  function After(synced: Option<Block>): (ls: seq<string>)
    ensures ls == [] <==> synced.None?
  {
    if synced.None? then [] else [""] + BlockLines(synced.value)
  }

  /** A canonical name, and an npub that is one word. */
  predicate ValidHost(h: Host) {
    ValidName(h.name) && LowerAll(h.name) == h.name && h.npub != "" && NoSpace(h.npub)
  }

  predicate ValidHosts(hosts: seq<Host>) {
    && (forall i :: 0 <= i < |hosts| ==> ValidHost(hosts[i]))
    && (forall i, j :: 0 <= i < j < |hosts| ==> hosts[i].name != hosts[j].name)
  }

  predicate ValidBlock(b: Block) {
    IsMaster(b.master) && (b.labelled.Some? ==> OneLine(b.labelled.value)) && ValidHosts(b.hosts)
  }

  predicate ValidSynced(synced: Option<Block>) { synced.Some? ==> ValidBlock(synced.value) }

  // ---------------------------------------------------------------------------------
  // Reading it back
  // ---------------------------------------------------------------------------------

  predicate PlainName(s: string) { s != "" && NoSpace(s) }

  lemma {:induction false} WordEndOf(s: string, rest: string)
    requires NoSpace(s) && (rest == "" || IsSpace(rest[0]))
    ensures WordEnd(s + rest) == |s|
  {
    if s == "" {
      assert s + rest == rest;
    } else {
      assert (s + rest)[1..] == s[1..] + rest;
      WordEndOf(s[1..], rest);
    }
  }

  lemma FieldsOfTwo(a: string, b: string)
    requires PlainName(a) && PlainName(b)
    ensures Fields(a + " " + b) == [a, b]
  {
    var s := a + " " + b;
    assert s == a + (" " + b);
    WordEndOf(a, " " + b);
    assert s[..|a|] == a && s[|a| + 1..] == b;
    assert b + "" == b;
    WordEndOf(b, "");
    assert TrimStart(b) == b;
    assert Fields(b) == [b];
  }

  lemma NameIsPlain(name: string)
    requires ValidName(name)
    ensures PlainName(name) && OneLine(name) && name[0] != '#'
  {
    assert forall i :: 0 <= i < |name| ==> IsNameChar(name[i]);
  }

  lemma SpacelessIsOneLine(s: string)
    requires NoSpace(s)
    ensures OneLine(s)
  {
    assert forall i :: 0 <= i < |s| ==> !IsSpace(s[i]);
  }

  lemma HostLineShape(h: Host)
    requires ValidHost(h)
    ensures var l := HostLine(h); l != "" && Trim(l) == l && l[0] == h.name[0] && OneLine(l)
  {
    NameIsPlain(h.name);
    SpacelessIsOneLine(h.npub);
    var l := HostLine(h);
    assert l[0] == h.name[0] && l[|l| - 1] == h.npub[|h.npub| - 1];
    TrimWhole(l);
  }

  /** A line written for a host is an entry for it and neither begins nor ends a block. */
  lemma HostLineReads(h: Host)
    requires ValidHost(h)
    ensures var l := HostLine(h); Entry(l) == Some(h) && !Begins(l) && !Ends(l) && !Blank(l) && OneLine(l)
  {
    HostLineShape(h);
    NameIsPlain(h.name);
    FieldsOfTwo(h.name, h.npub);
    var l := HostLine(h);
    assert BEGIN[0] == '#' && END[0] == '#' && l[0] != '#';
  }

  lemma NotPrefix(p: string, s: string, i: nat)
    requires i < |p| && i < |s| && p[i] != s[i]
    ensures !(p <= s)
  {
  }

  lemma EndLineReads()
    ensures Trim(END) == END && Ends(END) && !Begins(END) && OneLine(END) && Entry(END).None?
  {
    TrimWhole(END);
    NotPrefix(BEGIN, END, 2);
  }

  lemma BeginFacts()
    ensures |BEGIN| == 24 && BEGIN[0] == '#' && BEGIN[2] == '>' && END[2] == '<' && OneLine(BEGIN)
  {
  }

  lemma BeginLineShape(master: string, labelled: Option<string>)
    requires IsMaster(master) && (labelled.Some? ==> OneLine(labelled.value))
    ensures var l := BeginLine(master, labelled);
      l != "" && OneLine(l) && l[0] == '#' && !IsSpace(l[|l| - 1]) && Tail(labelled) != "" && !IsWord(Tail(labelled)[0])
  {
    MasterIsOneLine(master);
    TailShape(labelled);
    BeginFacts();
    ThreeParts(BEGIN, master, Tail(labelled));
  }

  lemma ThreeParts(a: string, b: string, c: string)
    requires a != "" && c != "" && OneLine(a) && OneLine(b) && OneLine(c)
    ensures var l := a + b + c; l != "" && OneLine(l) && l[0] == a[0] && l[|l| - 1] == c[|c| - 1]
  {
    assert (a + b + c)[0] == a[0];
  }

  lemma ManagedFacts()
    ensures OneLine(MANAGED) && MANAGED[|MANAGED| - 1] == 'c' && MANAGED[0] == ':'
  {
    assert OneLine(EDITS) && EDITS[|EDITS| - 1] == 'c';
    assert OneLine(": managed by fips2go, ");
  }

  lemma TailShape(labelled: Option<string>)
    requires labelled.Some? ==> OneLine(labelled.value)
    ensures var t := Tail(labelled);
      t != "" && OneLine(t) && t[0] == (if labelled.None? then ':' else ' ') && !IsSpace(t[|t| - 1])
  {
    ManagedFacts();
    var t := Tail(labelled);
    assert t[|t| - 1] == MANAGED[|MANAGED| - 1];
    assert t[0] == if labelled.None? then ':' else ' ';
  }

  lemma MasterIsOneLine(master: string)
    requires IsMaster(master)
    ensures OneLine(master)
  {
    forall i | 0 <= i < 63
      ensures master[i] != '\n' && master[i] != '\r'
    {
      if i < 5 {
        assert master[i] == master[..5][i] == "npub1"[i];
      } else {
        assert IsBech32Char(master[i]);
      }
    }
  }

  lemma BeginLineReads(master: string, labelled: Option<string>)
    requires IsMaster(master) && (labelled.Some? ==> OneLine(labelled.value))
    ensures var l := BeginLine(master, labelled);
      MasterOf(l) == Some(master) && !Ends(l) && !Blank(l) && OneLine(l) && Entry(l).None?
  {
    var l := BeginLine(master, labelled);
    BeginLineShape(master, labelled);
    TrimWhole(l);
    BeginFacts();
    Placed(BEGIN, master, Tail(labelled));
    NotPrefix(END, l, 2);
  }

  lemma Placed(p: string, m: string, q: string)
    requires |p| > 2 && |q| > 0
    ensures var l := p + m + q;
      p <= l && l[2] == p[2] && |p| + |m| < |l| && l[|p|..|p| + |m|] == m && l[|p| + |m|] == q[0]
  {
  }

  // ---- splitting ----

  lemma {:induction false} BeginFound(ls: seq<string>, i: nat, k: nat)
    requires i <= k <= |ls| && (forall j :: i <= j < k ==> !Begins(ls[j])) && (k < |ls| ==> Begins(ls[k]))
    ensures BeginFrom(ls, i) == k
    decreases |ls| - i
  {
    if i < k {
      BeginFound(ls, i + 1, k);
    }
  }

  lemma {:induction false} EndFound(ls: seq<string>, i: nat, k: nat)
    requires 0 < i <= k < |ls| && (forall j :: i <= j < k ==> !Ends(ls[j])) && Ends(ls[k])
    ensures EndFrom(ls, i) == k
    decreases |ls| - i
  {
    if i < k {
      EndFound(ls, i + 1, k);
    }
  }

  lemma HostLinesRead(hosts: seq<Host>)
    requires ValidHosts(hosts)
    ensures forall i :: 0 <= i < |hosts| ==>
      var l := HostLines(hosts)[i];
      Entry(l) == Some(hosts[i]) && !Begins(l) && !Ends(l) && !Blank(l) && OneLine(l)
  {
    forall i | 0 <= i < |hosts|
      ensures var l := HostLines(hosts)[i];
        Entry(l) == Some(hosts[i]) && !Begins(l) && !Ends(l) && !Blank(l) && OneLine(l)
    {
      HostLineReads(hosts[i]);
    }
  }

  function BlockOf(synced: Option<Block>): Option<seq<string>> {
    if synced.None? then None else Some(BlockLines(synced.value))
  }

  function MasterName(synced: Option<Block>): Option<string> {
    if synced.None? then None else Some(synced.value.master)
  }

  /** The file for some entries and a block splits into just those entries and that block. */
  lemma SplitCanonical(local: seq<Host>, synced: Option<Block>)
    requires ValidHosts(local) && ValidSynced(synced)
    ensures SplitLines(Canonical(local, synced)) == Split(HostLines(local), BlockOf(synced), MasterName(synced))
  {
    HostLinesRead(local);
    var ls := Canonical(local, synced);
    if synced.None? {
      assert ls == HostLines(local);
      assert forall j :: 0 <= j < |local| ==> !Begins(ls[j]);
      BeginFound(ls, 0, |ls|);
    } else {
      SplitAtBlock(HostLines(local), synced.value);
    }
  }

  lemma SplitAtBlock(lines: seq<string>, b: Block)
    requires (forall i :: 0 <= i < |lines| ==> !Begins(lines[i])) && ValidBlock(b)
    ensures SplitLines(lines + ([""] + BlockLines(b))) == Split(lines, Some(BlockLines(b)), Some(b.master))
  {
    var block := BlockLines(b);
    var ls := lines + ([""] + block);
    BlockLinesRead(b);
    assert ls[|lines| + 1..] == block && ls[..|lines|] == lines;
    BlockFound(ls, lines, block);
  }

  predicate BlockShaped(block: seq<string>) {
    && 2 <= |block| && Begins(block[0]) && Ends(block[|block| - 1])
    && forall j :: 0 < j < |block| - 1 ==> !Ends(block[j])
  }

  lemma BlockFound(ls: seq<string>, lines: seq<string>, block: seq<string>)
    requires |ls| == |lines| + 1 + |block| && BlockShaped(block)
    requires ls[..|lines|] == lines && ls[|lines|] == "" && ls[|lines| + 1..] == block
    requires forall i :: 0 <= i < |lines| ==> !Begins(lines[i])
    ensures SplitLines(ls) == Split(lines, Some(block), MasterOf(block[0]))
  {
    var n, last := |lines|, |ls| - 1;
    BlockStarts(ls, lines);
    forall j | 0 <= j < |block|
      ensures ls[n + 1 + j] == block[j]
    {
      assert ls[n + 1..][j] == ls[n + 1 + j];
    }
    BeginFound(ls, 0, n + 1);
    forall j | n + 2 <= j < last
      ensures !Ends(ls[j])
    {
      assert ls[n + 1 + (j - n - 1)] == block[j - n - 1];
    }
    assert ls[n + 1 + (|block| - 1)] == block[|block| - 1];
    EndFound(ls, n + 2, last);
    assert ls[n + 1..last + 1] == block && ls[..n] + ls[last + 1..] == lines;
  }

  lemma BlockStarts(ls: seq<string>, lines: seq<string>)
    requires |lines| < |ls| && ls[..|lines|] == lines && ls[|lines|] == ""
    requires forall i :: 0 <= i < |lines| ==> !Begins(lines[i])
    ensures forall j :: 0 <= j < |lines| + 1 ==> !Begins(ls[j])
    ensures Blank(ls[|lines|])
  {
    forall j | 0 <= j < |lines|
      ensures !Begins(ls[j])
    {
      assert ls[j] == ls[..|lines|][j] == lines[j];
    }
  }

  lemma BlockLinesRead(b: Block)
    requires ValidBlock(b)
    ensures var ls := BlockLines(b);
      && |ls| == |b.hosts| + 2 && MasterOf(ls[0]) == Some(b.master)
      && (forall j :: 0 < j < |ls| - 1 ==> !Ends(ls[j])) && Ends(ls[|ls| - 1])
      && AllOneLine(ls)
  {
    BeginLineReads(b.master, b.labelled);
    EndLineReads();
    HostLinesRead(b.hosts);
    var mid := HostLines(b.hosts);
    assert forall i :: 0 <= i < |mid| ==> !Ends(mid[i]) && OneLine(mid[i]);
    Enclosed(BeginLine(b.master, b.labelled), mid, END);
  }

  lemma Enclosed(first: string, mid: seq<string>, last: string)
    requires forall i :: 0 <= i < |mid| ==> !Ends(mid[i]) && OneLine(mid[i])
    requires OneLine(first) && OneLine(last)
    ensures var ls := [first] + mid + [last];
      && |ls| == |mid| + 2 && ls[0] == first && ls[|ls| - 1] == last && AllOneLine(ls)
      && forall j :: 0 < j < |ls| - 1 ==> !Ends(ls[j])
  {
    var ls := [first] + mid + [last];
    forall j | 0 < j < |ls| - 1
      ensures !Ends(ls[j]) && OneLine(ls[j])
    {
      assert ls[j] == mid[j - 1];
    }
  }

  lemma CanonicalIsOneLine(local: seq<Host>, synced: Option<Block>)
    requires ValidHosts(local) && ValidSynced(synced)
    ensures AllOneLine(Canonical(local, synced))
  {
    HostLinesRead(local);
    assert AllOneLine(HostLines(local));
    if synced.Some? {
      BlockLinesRead(synced.value);
      JoinedOneLine([""], BlockLines(synced.value));
    }
    JoinedOneLine(HostLines(local), After(synced));
  }

  lemma JoinedOneLine(a: seq<string>, b: seq<string>)
    requires AllOneLine(a) && AllOneLine(b)
    ensures AllOneLine(a + b)
  {
  }

  // ---- parsing ----

  lemma {:induction false} ParseAppend(hosts: seq<Host>, a: seq<string>, b: seq<string>)
    ensures ParseOnto(hosts, a + b) == ParseOnto(ParseOnto(hosts, a), b)
    decreases |a|
  {
    if a == [] {
      assert a + b == b;
    } else {
      assert (a + b)[1..] == a[1..] + b;
      var e := Entry(a[0]);
      ParseAppend(if e.None? then hosts else Put(hosts, e.value), a[1..], b);
    }
  }

  lemma ParseOne(hosts: seq<Host>, line: string)
    ensures ParseOnto(hosts, [line]) == if Entry(line).None? then hosts else Put(hosts, Entry(line).value)
  {
    assert [line][1..] == [];
  }

  /** The entries of `base` whose names are not among `hosts`. */
  function Kept(base: seq<Host>, hosts: seq<Host>): seq<Host> {
    if base == [] then []
    else (if Named(hosts, base[0].name) then [] else [base[0]]) + Kept(base[1..], hosts)
  }

  predicate Named(hosts: seq<Host>, name: string) {
    exists i :: 0 <= i < |hosts| && hosts[i].name == name
  }

  lemma {:induction false} WithoutKept(base: seq<Host>, hosts: seq<Host>, h: Host)
    ensures Without(Kept(base, hosts), h.name) == Kept(base, hosts + [h])
    decreases |base|
  {
    if base != [] {
      WithoutKept(base[1..], hosts, h);
      NamedMore(hosts, h, base[0].name);
      var rest := Kept(base[1..], hosts);
      if Named(hosts, base[0].name) {
        assert [] + rest == rest;
      } else {
        assert ([base[0]] + rest)[1..] == rest;
      }
    }
  }

  lemma NamedMore(hosts: seq<Host>, h: Host, name: string)
    ensures Named(hosts + [h], name) <==> Named(hosts, name) || h.name == name
  {
    if Named(hosts, name) {
      var i :| 0 <= i < |hosts| && hosts[i].name == name;
      assert (hosts + [h])[i].name == name;
    } else if h.name == name {
      assert (hosts + [h])[|hosts|].name == name;
    }
  }

  lemma {:induction false} WithoutAppend(a: seq<Host>, b: seq<Host>, name: string)
    ensures Without(a + b, name) == Without(a, name) + Without(b, name)
    decreases |a|
  {
    if a == [] {
      assert a + b == b;
    } else {
      assert (a + b)[1..] == a[1..] + b;
      WithoutAppend(a[1..], b, name);
    }
  }

  lemma {:induction false} WithoutNone(hosts: seq<Host>, name: string)
    requires forall i :: 0 <= i < |hosts| ==> hosts[i].name != name
    ensures Without(hosts, name) == hosts
    decreases |hosts|
  {
    if hosts != [] {
      WithoutNone(hosts[1..], name);
    }
  }

  lemma {:induction false} KeptAll(base: seq<Host>)
    ensures Kept(base, []) == base
  {
    if base != [] {
      KeptAll(base[1..]);
    }
  }

  lemma HostLinesAppend(hosts: seq<Host>, h: Host)
    ensures HostLines(hosts + [h]) == HostLines(hosts) + [HostLine(h)]
  {
  }

  /** Distinct entries written after others replace those of the same name and come last, in their order. */
  lemma {:induction false} ParsedAfter(base: seq<Host>, hosts: seq<Host>)
    requires ValidHosts(hosts)
    ensures ParseOnto(base, HostLines(hosts)) == Kept(base, hosts) + hosts
    decreases |hosts|
  {
    if hosts == [] {
      KeptAll(base);
      assert HostLines(hosts) == [] && Kept(base, hosts) + hosts == base;
    } else {
      var n := |hosts| - 1;
      var init, h := hosts[..n], hosts[n];
      assert hosts == init + [h];
      ParsedAfter(base, init);
      HostLineReads(h);
      HostLinesAppend(init, h);
      ParseAppend(base, HostLines(init), [HostLine(h)]);
      ParseOne(Kept(base, init) + init, HostLine(h));
      PutLast(base, init, h);
    }
  }

  lemma PutLast(base: seq<Host>, init: seq<Host>, h: Host)
    requires forall i :: 0 <= i < |init| ==> init[i].name != h.name
    ensures Put(Kept(base, init) + init, h) == Kept(base, init + [h]) + (init + [h])
  {
    WithoutAppend(Kept(base, init), init, h.name);
    WithoutKept(base, init, h);
    WithoutNone(init, h.name);
  }

  lemma ParsedAlone(hosts: seq<Host>)
    requires ValidHosts(hosts)
    ensures Parse(HostLines(hosts)) == hosts
  {
    ParsedAfter([], hosts);
    assert [] + hosts == hosts;
  }

  /** A block's first and last lines are comments to the parser. */
  lemma BlockParsed(base: seq<Host>, b: Block)
    requires ValidBlock(b)
    ensures ParseOnto(base, BlockLines(b)) == Kept(base, b.hosts) + b.hosts
  {
    var first, mid := [BeginLine(b.master, b.labelled)], HostLines(b.hosts);
    BeginLineReads(b.master, b.labelled);
    EndLineReads();
    ParseAppend(base, first + mid, [END]);
    ParseAppend(base, first, mid);
    ParseOne(base, first[0]);
    ParsedAfter(base, b.hosts);
    ParseOne(Kept(base, b.hosts) + b.hosts, END);
  }

  // ---------------------------------------------------------------------------------
  // Writing it
  // ---------------------------------------------------------------------------------

  function SplitText(file: Option<string>): Split {
    if file.None? then Split([], None, None) else SplitLines(FileLines(file.value))
  }

  /** The text `save` writes: new entries, the block as it stands. */
  function SavedText(file: Option<string>, hosts: seq<Host>): string {
    var block := SplitText(file).block;
    Text(HostLines(hosts) + (if block.None? then [] else [""] + block.value))
  }

  function DropBlank(ls: seq<string>): (r: seq<string>)
    ensures r <= ls
  {
    if ls != [] && Blank(ls[|ls| - 1]) then DropBlank(ls[..|ls| - 1]) else ls
  }

  /** The text `saveSynced` is after: the user's lines, a new block or none. */
  function SyncedText(file: Option<string>, synced: Option<Block>): string {
    Text(DropBlank(SplitText(file).local) + (if synced.None? then [] else [""] + BlockLines(synced.value)))
  }

  /** The file holds these entries and this block; no file holds none. */
  predicate Holds(file: Option<string>, local: seq<Host>, synced: Option<Block>) {
    && ValidHosts(local) && ValidSynced(synced)
    && (if file.None? then local == [] && synced.None? else file.value == Text(Canonical(local, synced)))
  }

  lemma SplitHeld(file: Option<string>, local: seq<Host>, synced: Option<Block>)
    requires Holds(file, local, synced)
    ensures SplitText(file) == Split(HostLines(local), BlockOf(synced), MasterName(synced))
  {
    if file.Some? {
      CanonicalIsOneLine(local, synced);
      FileLinesOfText(Canonical(local, synced));
      SplitCanonical(local, synced);
    }
  }

  /** What is read from a file is what it holds; a synced entry replaces the user's of the same name. */
  lemma ReadsBack(file: Option<string>, local: seq<Host>, synced: Option<Block>)
    requires Holds(file, local, synced)
    ensures Parse(SplitText(file).local) == local
    ensures synced.Some? ==> Parse(BlockLines(synced.value)) == synced.value.hosts
    ensures synced.Some? ==>
      Parse(SplitText(file).local + BlockLines(synced.value)) == Kept(local, synced.value.hosts) + synced.value.hosts
  {
    SplitHeld(file, local, synced);
    ParsedAlone(local);
    if synced.Some? {
      BlockParsed([], synced.value);
      assert [] + synced.value.hosts == synced.value.hosts;
      ParseAppend([], HostLines(local), BlockLines(synced.value));
      BlockParsed(local, synced.value);
    }
  }

  lemma SaveHeld(file: Option<string>, local: seq<Host>, synced: Option<Block>, hosts: seq<Host>)
    requires Holds(file, local, synced) && ValidHosts(hosts)
    ensures Holds(Some(SavedText(file, hosts)), hosts, synced)
  {
    SplitHeld(file, local, synced);
  }

  lemma NothingToDrop(local: seq<Host>)
    requires ValidHosts(local)
    ensures DropBlank(HostLines(local)) == HostLines(local)
  {
    HostLinesRead(local);
  }

  lemma SyncHeld(file: Option<string>, local: seq<Host>, synced: Option<Block>, next: Option<Block>)
    requires Holds(file, local, synced) && ValidSynced(next)
    ensures Holds(Some(SyncedText(file, next)), local, next)
  {
    SplitHeld(file, local, synced);
    NothingToDrop(local);
  }

  /** A sync rewrites the file exactly if it brings another block: master, label or entries. */
  lemma SyncChangesIff(file: Option<string>, local: seq<Host>, synced: Option<Block>, next: Option<Block>)
    requires Holds(file, local, synced) && ValidSynced(next)
    ensures SyncedText(file, next) == (if file.None? then "" else file.value) <==> next == synced
  {
    SyncHeld(file, local, synced, next);
    if SyncedText(file, next) == (if file.None? then "" else file.value) {
      CanonicalIsOneLine(local, synced);
      CanonicalIsOneLine(local, next);
      assert Text([]) == "" && HostLines([]) == [];
      TextInjective(Canonical(local, synced), Canonical(local, next));
      CanonicalInjective(local, synced, next);
    }
  }

  lemma CanonicalInjective(local: seq<Host>, a: Option<Block>, b: Option<Block>)
    requires ValidSynced(a) && ValidSynced(b) && Canonical(local, a) == Canonical(local, b)
    ensures a == b
  {
    var p, x, y := HostLines(local), After(a), After(b);
    SameRest(p, x, y);
    if a.Some? && b.Some? {
      SameRest([""], BlockLines(a.value), BlockLines(b.value));
      BlockInjective(a.value, b.value);
    } else {
      assert |x| == |y|;
    }
  }

  lemma SameRest(p: seq<string>, x: seq<string>, y: seq<string>)
    requires p + x == p + y
    ensures x == y
  {
    assert (p + x)[|p|..] == x && (p + y)[|p|..] == y;
  }

  lemma BlockInjective(a: Block, b: Block)
    requires ValidBlock(a) && ValidBlock(b) && BlockLines(a) == BlockLines(b)
    ensures a == b
  {
    BlockPieces(a);
    BlockPieces(b);
    BeginInjective(a.master, a.labelled, b.master, b.labelled);
    HostsInjective(a.hosts, b.hosts);
  }

  lemma BlockPieces(b: Block)
    ensures var ls := BlockLines(b);
      |ls| == |b.hosts| + 2 && ls[0] == BeginLine(b.master, b.labelled) && ls[1..|ls| - 1] == HostLines(b.hosts)
  {
  }

  lemma HostsInjective(a: seq<Host>, b: seq<Host>)
    requires ValidHosts(a) && ValidHosts(b) && HostLines(a) == HostLines(b)
    ensures a == b
  {
    HostLinesRead(a);
    HostLinesRead(b);
    forall i | 0 <= i < |HostLines(a)|
      ensures a[i] == b[i]
    {
      assert Entry(HostLines(a)[i]) == Some(a[i]) && Entry(HostLines(b)[i]) == Some(b[i]);
    }
    assert |a| == |HostLines(a)| == |b|;
  }

  lemma BeginInjective(m: string, x: Option<string>, n: string, y: Option<string>)
    requires IsMaster(m) && IsMaster(n)
    requires (x.Some? ==> OneLine(x.value)) && (y.Some? ==> OneLine(y.value))
    requires BeginLine(m, x) == BeginLine(n, y)
    ensures m == n && x == y
  {
    BeginLineReads(m, x);
    BeginLineReads(n, y);
    var k := |BEGIN| + 63;
    BeginFacts();
    BehindMaster(BEGIN, m, Tail(x));
    BehindMaster(BEGIN, n, Tail(y));
    TailInjective(x, y);
  }

  lemma BehindMaster(p: string, m: string, q: string)
    ensures (p + m + q)[|p| + |m|..] == q
  {
  }

  lemma TailInjective(x: Option<string>, y: Option<string>)
    requires (x.Some? ==> OneLine(x.value)) && (y.Some? ==> OneLine(y.value))
    requires Tail(x) == Tail(y)
    ensures x == y
  {
    TailStart(x);
    TailStart(y);
    if x.Some? && y.Some? {
      SameMiddle(" (", x.value, y.value, ")" + MANAGED);
    }
  }

  lemma TailStart(x: Option<string>)
    requires x.Some? ==> OneLine(x.value)
    ensures Tail(x) != "" && Tail(x)[0] == if x.None? then ':' else ' '
    ensures x.Some? ==> Tail(x) == " (" + x.value + (")" + MANAGED)
  {
    TailShape(x);
    if x.Some? {
      Regroup(" (" + x.value, ")", MANAGED);
    }
  }

  lemma Regroup(p: string, q: string, r: string)
    ensures p + q + r == p + (q + r)
  {
  }

  lemma SameMiddle(p: string, x: string, y: string, q: string)
    requires p + x + q == p + y + q
    ensures x == y
  {
    assert |x| == |y|;
    assert (p + x + q)[|p|..|p| + |x|] == x && (p + y + q)[|p|..|p| + |y|] == y;
  }
}

/** The store over its file. */
module HostsStore {
  import opened AsciiText
  import opened Bytes
  import opened HostsText

  class Store {
    var file: Option<string>
    ghost var local: seq<Host>
    ghost var synced: Option<Block>

    constructor ()
      ensures Valid() && file.None? && local == [] && synced.None?
    {
      file, local, synced := None, [], None;
    }

    /** The file refines a list of the user's and a synced block. */
    ghost predicate Valid()
      reads this
    {
      Holds(file, local, synced)
    }

    method ParseLines(lines: seq<string>) returns (hosts: seq<Host>)
      ensures hosts == Parse(lines)
    {
      hosts := [];
      for i := 0 to |lines|
        invariant Parse(lines) == ParseOnto(hosts, lines[i..])
      {
        assert lines[i..][0] == lines[i] && lines[i..][1..] == lines[i + 1..];
        var trimmed := Trim(lines[i]);
        if trimmed == "" || trimmed[0] == '#' {
          continue;
        }
        var fields := Fields(trimmed);
        if |fields| != 2 || !ValidName(fields[0]) {
          continue;
        }
        var name := LowerAll(fields[0]);
        hosts := Without(hosts, name);
        hosts := hosts + [Host(name, fields[1])];
      }
    }

    /** The user's own entries. */
    method Load() returns (hosts: seq<Host>)
      ensures hosts == Parse(SplitText(file).local)
      ensures Valid() ==> hosts == local
    {
      hosts := ParseLines(SplitText(file).local);
      if Valid() {
        ReadsBack(file, local, synced);
      }
    }

    /** What resolves. */
    method Effective() returns (hosts: seq<Host>)
      ensures Valid() ==> hosts == if synced.None? then local else Kept(local, synced.value.hosts) + synced.value.hosts
    {
      var s := SplitText(file);
      hosts := ParseLines(s.local + if s.block.None? then [] else s.block.value);
      if Valid() {
        SplitHeld(file, local, synced);
        ReadsBack(file, local, synced);
        assert s.local + [] == s.local;
      }
    }

    /** The synced block's master and entries. */
    method LoadSynced() returns (r: Option<(string, seq<Host>)>)
      ensures Valid() ==> r == if synced.None? then None else Some((synced.value.master, synced.value.hosts))
    {
      if Valid() {
        SplitHeld(file, local, synced);
        ReadsBack(file, local, synced);
      }
      var s := SplitText(file);
      if s.master.None? || s.block.None? {
        return None;
      }
      var hosts := ParseLines(s.block.value);
      r := Some((s.master.value, hosts));
    }

    /** Replace the user's entries; `replaced`: whether the rename worked. */
    method Save(hosts: seq<Host>, replaced: bool) returns (ok: bool)
      modifies this
      ensures ok == replaced
      ensures file == if replaced then Some(SavedText(old(file), hosts)) else old(file)
      ensures old(Valid()) && ValidHosts(hosts) ==>
        Valid() && local == (if replaced then hosts else old(local)) && synced == old(synced)
    {
      var block := SplitText(file).block;
      var out := HostLines(hosts);
      if block.Some? {
        out := out + ([""] + block.value);
      }
      if !replaced {
        return false;
      }
      if Valid() && ValidHosts(hosts) {
        SaveHeld(file, local, synced, hosts);
      }
      assert out == HostLines(hosts) + (if block.None? then [] else [""] + block.value);
      file := Some(Text(out));
      local := hosts;
      ok := true;
    }

    /** Replace the synced block or remove it; the user's lines stay. None: the file could not be replaced. */
    method SaveSynced(next: Option<Block>, replaced: bool) returns (changed: Option<bool>)
      modifies this
      ensures changed == Some(false) <==> SyncedText(old(file), next) == TextOf(old(file))
      ensures changed == Some(true) ==> file == Some(SyncedText(old(file), next))
      ensures changed.None? ==> !replaced
      ensures changed != Some(true) ==> file == old(file)
      ensures old(Valid()) && ValidSynced(next) ==>
        Valid() && local == old(local) && synced == (if replaced then next else old(synced))
      ensures old(Valid()) && ValidSynced(next) ==> (changed == Some(false) <==> next == old(synced))
    {
      var lines := SplitText(file).local;
      while |lines| > 0 && Blank(lines[|lines| - 1])
        invariant DropBlank(lines) == DropBlank(SplitText(file).local)
      {
        lines := lines[..|lines| - 1];
      }
      if next.Some? {
        lines := lines + ([""] + BlockLines(next.value));
      } else {
        assert lines + [] == lines;
      }
      var content := Text(lines);
      assert content == SyncedText(file, next);
      if Valid() && ValidSynced(next) {
        SyncHeld(file, local, synced, next);
        SyncChangesIff(file, local, synced, next);
      }
      if content == TextOf(file) {
        return Some(false);
      }
      if !replaced {
        return None;
      }
      file := Some(content);
      synced := next;
      changed := Some(true);
    }

    /** One edit, whether it reaches the file or not. */
    method Apply(e: Edit)
      requires Valid() && ValidEdit(e)
      modifies this
      ensures Valid()
      ensures local == if Saves(e) then e.hosts else old(local)
      ensures synced == if Syncs(e) then e.next else old(synced)
    {
      match e {
        case SaveLocal(hosts, replaced) =>
          var _ := Save(hosts, replaced);
        case Sync(next, replaced) =>
          var _ := SaveSynced(next, replaced);
      }
    }
  }

  function TextOf(file: Option<string>): string { if file.None? then "" else file.value }

  /** `replaced`: whether the new file could take the place of the old one. */
  datatype Edit = SaveLocal(hosts: seq<Host>, replaced: bool) | Sync(next: Option<Block>, replaced: bool)

  predicate ValidEdit(e: Edit) {
    match e
    case SaveLocal(hosts, _) => ValidHosts(hosts)
    case Sync(next, _) => ValidSynced(next)
  }

  predicate Saves(e: Edit) { e.SaveLocal? && e.replaced }

  predicate Syncs(e: Edit) { e.Sync? && e.replaced }

  /** The last list that reached the file. */
  function LastLocal(edits: seq<Edit>): seq<Host> {
    if edits == [] then []
    else if Saves(edits[|edits| - 1]) then edits[|edits| - 1].hosts
    else LastLocal(edits[..|edits| - 1])
  }

  /** The last block that did. */
  function LastSynced(edits: seq<Edit>): Option<Block> {
    if edits == [] then None
    else if Syncs(edits[|edits| - 1]) then edits[|edits| - 1].next
    else LastSynced(edits[..|edits| - 1])
  }

  /** From no file at all, whatever was saved last on either side reads back, and a repeated sync changes nothing. */
  method ApplyEdits(edits: seq<Edit>)
    returns (s: Store, loaded: seq<Host>, block: Option<(string, seq<Host>)>, resolved: seq<Host>, again: Option<bool>)
    requires forall i :: 0 <= i < |edits| ==> ValidEdit(edits[i])
    ensures loaded == LastLocal(edits)
    ensures block == match LastSynced(edits) { case None => None case Some(b) => Some((b.master, b.hosts)) }
    ensures resolved == match LastSynced(edits) { case None => loaded case Some(b) => Kept(loaded, b.hosts) + b.hosts }
    ensures again == Some(false)
  {
    s := new Store();
    for i := 0 to |edits|
      invariant fresh(s) && s.Valid()
      invariant s.local == LastLocal(edits[..i]) && s.synced == LastSynced(edits[..i])
    {
      LastOfMore(edits, i);
      assert ValidEdit(edits[i]);
      s.Apply(edits[i]);
    }
    assert edits[..|edits|] == edits;
    loaded := s.Load();
    block := s.LoadSynced();
    resolved := s.Effective();
    again := s.SaveSynced(LastSynced(edits), true);
  }

  lemma LastOfMore(edits: seq<Edit>, i: nat)
    requires i < |edits|
    ensures LastLocal(edits[..i + 1]) == if Saves(edits[i]) then edits[i].hosts else LastLocal(edits[..i])
    ensures LastSynced(edits[..i + 1]) == if Syncs(edits[i]) then edits[i].next else LastSynced(edits[..i])
  {
    assert edits[..i + 1][..i] == edits[..i];
  }
}
