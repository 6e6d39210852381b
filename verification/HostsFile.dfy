/**
 * Printing and parsing the managed block of the hosts file. Only the lines between the two markers are
 * ever touched; what is printed is read back exactly.
 */
module HostsFile {
  import opened Common

  const BLOCK_BEGIN := "# >>> TunnelBoard Managed (do not edit) >>>"
  const BLOCK_END := "# <<< TunnelBoard Managed <<<"

  // ---------- Lines ----------

  predicate OneLine(s: string) { '\n' !in s }

  predicate OneLineEach(lines: seq<string>) { forall i :: 0 <= i < |lines| ==> OneLine(lines[i]) }

  /** strings.Split at newlines. */
  function Split(s: string): (parts: seq<string>)
    ensures parts != [] && OneLineEach(parts)
  {
    if s == "" then [""]
    else
      var rest := Split(s[1..]);
      if s[0] == '\n' then [""] + rest else [[s[0]] + rest[0]] + rest[1..]
  }

  function DropCR(line: string): string {
    if line != "" && line[|line| - 1] == '\r' then line[..|line| - 1] else line
  }

  function DropCREach(lines: seq<string>): (r: seq<string>)
    ensures |r| == |lines| && forall i :: 0 <= i < |lines| ==> r[i] == DropCR(lines[i])
  {
    seq(|lines|, i requires 0 <= i < |lines| => DropCR(lines[i]))
  }

  function SplitLines(content: string): (lines: seq<string>)
    ensures OneLineEach(lines)
  {
    if content == "" then []
    else
      var parts := Split(content);
      DropCREach(if parts[|parts| - 1] == "" then parts[..|parts| - 1] else parts)
  }

  /** strings.Join with CRLF. */
  function Join(lines: seq<string>): string {
    if lines == [] then ""
    else if |lines| == 1 then lines[0]
    else lines[0] + "\r\n" + Join(lines[1..])
  }

  function JoinCRLF(lines: seq<string>): string { if lines == [] then "" else Join(lines) + "\r\n" }

  function WithCR(lines: seq<string>): seq<string> { seq(|lines|, i requires 0 <= i < |lines| => lines[i] + "\r") }

  lemma {:induction false} SplitFirst(line: string, rest: string)
    requires OneLine(line)
    ensures Split(line + "\n" + rest) == [line] + Split(rest)
  {
    var s := line + "\n" + rest;
    if line == "" {
      assert s[1..] == rest;
    } else {
      assert s[1..] == line[1..] + "\n" + rest;
      SplitFirst(line[1..], rest);
      assert line == [line[0]] + line[1..];
    }
  }

  lemma JoinFirst(lines: seq<string>)
    requires lines != []
    ensures JoinCRLF(lines) == (lines[0] + "\r") + "\n" + JoinCRLF(lines[1..])
  {
  }

  lemma {:induction false} SplitJoined(lines: seq<string>)
    requires OneLineEach(lines)
    ensures Split(JoinCRLF(lines)) == WithCR(lines) + [""]
  {
    if lines == [] {
    } else {
      JoinFirst(lines);
      hide JoinCRLF;
      hide Split;
      var first, rest := lines[0] + "\r", lines[1..];
      SplitJoined(rest);
      SplitFirst(first, JoinCRLF(rest));
      assert WithCR(lines) == [first] + WithCR(rest);
    }
  }

  /** Lines survive being written and read back. */
  lemma LinesRoundTrip(lines: seq<string>)
    requires OneLineEach(lines)
    ensures SplitLines(JoinCRLF(lines)) == lines
  {
    if lines == [] {
    } else {
      SplitJoined(lines);
      var parts := Split(JoinCRLF(lines));
      assert parts[|parts| - 1] == "" && parts[..|parts| - 1] == WithCR(lines);
      assert forall i :: 0 <= i < |lines| ==> DropCR(WithCR(lines)[i]) == lines[i];
    }
  }

  // ---------- The block ----------

  /** The first line equal to `marker` from index `i` on, or the length. */
  function Find(lines: seq<string>, i: nat, marker: string): (at: nat)
    requires i <= |lines|
    ensures i <= at <= |lines|
    ensures forall k :: i <= k < at ==> lines[k] != marker
    ensures at < |lines| ==> lines[at] == marker
    decreases |lines| - i
  {
    if i == |lines| || lines[i] == marker then i else Find(lines, i + 1, marker)
  }

  function BeginOf(lines: seq<string>): nat { Find(lines, 0, BLOCK_BEGIN) }

  function EndOf(lines: seq<string>): nat
    requires BeginOf(lines) < |lines|
  {
    Find(lines, BeginOf(lines) + 1, BLOCK_END)
  }

  /** The lines before and after the first block; a block without an end reaches to the end of the file. */
  function Before(lines: seq<string>): seq<string> { lines[..BeginOf(lines)] }

  function After(lines: seq<string>): seq<string> {
    if BeginOf(lines) == |lines| || EndOf(lines) == |lines| then [] else lines[EndOf(lines) + 1..]
  }

  function EntryLine(e: HostEntry): string { e.ip + " " + e.domain }

  function EntryLines(entries: seq<HostEntry>): seq<string> {
    seq(|entries|, i requires 0 <= i < |entries| => EntryLine(entries[i]))
  }

  function RenderBlock(entries: seq<HostEntry>): seq<string> {
    if entries == [] then [] else [BLOCK_BEGIN] + EntryLines(entries) + [BLOCK_END]
  }

  function Render(content: string, entries: seq<HostEntry>): string {
    var lines := SplitLines(content);
    var begin := BeginOf(lines);
    if begin == |lines| then JoinCRLF(lines + RenderBlock(entries))
    else if EndOf(lines) == |lines| then JoinCRLF(lines[..begin] + RenderBlock(entries))
    else JoinCRLF(lines[..begin] + RenderBlock(entries) + lines[EndOf(lines) + 1..])
  }

  /** The length of the leading run of non-space characters. */
  function Word(s: string): (n: nat)
    ensures n <= |s| && forall k :: 0 <= k < n ==> !IsSpace(s[k])
    ensures n < |s| ==> IsSpace(s[n])
  {
    if s == "" || IsSpace(s[0]) then 0 else 1 + Word(s[1..])
  }

  function Fields(s: string): seq<string>
    decreases |s|
  {
    if s == "" then []
    else if IsSpace(s[0]) then Fields(s[1..])
    else [s[..Word(s)]] + Fields(s[Word(s)..])
  }

  function ParseLine(line: string): seq<HostEntry> {
    var fields := Fields(line);
    if |fields| == 2 && !("#" <= fields[0]) then [HostEntry(fields[1], fields[0])] else []
  }

  function ParseEach(lines: seq<string>): seq<HostEntry> {
    if lines == [] then [] else ParseEach(lines[..|lines| - 1]) + ParseLine(lines[|lines| - 1])
  }

  function ParseBlock(lines: seq<string>): seq<HostEntry> {
    if BeginOf(lines) == |lines| || EndOf(lines) == |lines| then []
    else ParseEach(lines[BeginOf(lines) + 1..EndOf(lines)])
  }

  function Parse(content: string): seq<HostEntry> { ParseBlock(SplitLines(content)) }

  // ---------- Entries ----------

  const MAX_HOST_ENTRIES := 256
  const MAX_DOMAIN_BYTES := 253
  const LOOPBACK := "127.0.0.1"

  /** The length in UTF-8. */
  function Bytes(s: string): nat {
    if s == "" then 0
    else
      var c := s[0] as int;
      (if c < 0x80 then 1 else if c < 0x800 then 2 else if c < 0x1_0000 then 3 else 4) + Bytes(s[1..])
  }

  /** unicode.IsControl. */
  predicate IsControl(c: char) { c < ' ' || '\U{007F}' <= c <= '\U{009F}' }

  predicate ValidDomain(domain: string) {
    && domain != "" && Bytes(domain) <= MAX_DOMAIN_BYTES && '.' in domain
    && forall c :: c in domain ==> !IsSpace(c) && !IsControl(c)
  }

  predicate ValidEntries(entries: seq<HostEntry>) {
    && |entries| <= MAX_HOST_ENTRIES
    && (forall e :: e in entries ==> ValidDomain(e.domain) && e.ip == LOOPBACK)
    && forall i, j :: 0 <= i < j < |entries| ==> Lower(entries[i].domain) != Lower(entries[j].domain)
  }

  /** All that printing and parsing need of the entries: both parts are words and no line is a comment. */
  predicate Printable(e: HostEntry) {
    && e.ip != "" && e.ip[0] != '#' && e.domain != ""
    && (forall c :: c in e.ip ==> !IsSpace(c)) && (forall c :: c in e.domain ==> !IsSpace(c))
  }

  predicate PrintableEach(entries: seq<HostEntry>) { forall i :: 0 <= i < |entries| ==> Printable(entries[i]) }

  lemma ValidatedIsPrintable(entries: seq<HostEntry>)
    requires ValidEntries(entries)
    ensures PrintableEach(entries)
  {
    forall i | 0 <= i < |entries| ensures Printable(entries[i]) {
      assert entries[i] in entries;
    }
  }

  // ---------- Laws of the lines ----------

  lemma {:induction false} WordOf(a: string, rest: string)
    requires forall c :: c in a ==> !IsSpace(c)
    requires rest == "" || IsSpace(rest[0])
    ensures Word(a + rest) == |a|
  {
    if a == "" {
      assert a + rest == rest;
    } else {
      assert (a + rest)[1..] == a[1..] + rest;
      assert forall c :: c in a[1..] ==> c in a;
      assert a[0] in a;
      WordOf(a[1..], rest);
    }
  }

  lemma FieldsOfEntry(e: HostEntry)
    requires Printable(e)
    ensures Fields(EntryLine(e)) == [e.ip, e.domain]
  {
    var line := EntryLine(e);
    var rest := " " + e.domain;
    assert line == e.ip + rest && e.ip[0] in e.ip && e.domain[0] in e.domain;
    WordOf(e.ip, rest);
    WordOf(e.domain, "");
    assert e.domain + "" == e.domain;
    assert Fields(e.domain) == [e.domain];
    assert rest[1..] == e.domain && Fields(rest) == Fields(e.domain);
    assert line[..|e.ip|] == e.ip && line[|e.ip|..] == rest;
  }

  lemma EntryLineParses(e: HostEntry)
    requires Printable(e)
    ensures ParseLine(EntryLine(e)) == [e]
    ensures OneLine(EntryLine(e)) && EntryLine(e) != BLOCK_BEGIN && EntryLine(e) != BLOCK_END
  {
    hide Fields;
    FieldsOfEntry(e);
    assert EntryLine(e)[0] == e.ip[0];
    assert IsSpace('\n');
  }

  lemma {:induction false} EntriesParse(entries: seq<HostEntry>)
    requires PrintableEach(entries)
    ensures ParseEach(EntryLines(entries)) == entries
  {
    if entries == [] {
    } else {
      var n := |entries| - 1;
      hide ParseLine;
      hide Printable;
      EntriesParse(entries[..n]);
      EntryLineParses(entries[n]);
      assert EntryLines(entries)[..n] == EntryLines(entries[..n]);
      assert entries == entries[..n] + [entries[n]];
    }
  }

  // ---------- Laws of the block ----------

  /** The lines a written block sits in. */
  lemma Layout(before: seq<string>, entries: seq<HostEntry>, after: seq<string>)
    requires BLOCK_BEGIN !in before && entries != [] && PrintableEach(entries)
    ensures var lines := before + RenderBlock(entries) + after;
      && BeginOf(lines) == |before| && EndOf(lines) == |before| + 1 + |entries|
      && Before(lines) == before && After(lines) == after
      && lines[|before| + 1..EndOf(lines)] == EntryLines(entries)
  {
    hide Printable;
    hide EntryLine;
    var lines := before + RenderBlock(entries) + after;
    var n := |before|;
    assert forall k :: 0 <= k < n ==> lines[k] == before[k];
    assert lines[n] == BLOCK_BEGIN && lines[n + 1 + |entries|] == BLOCK_END;
    forall k | 0 <= k < |entries|
      ensures lines[n + 1 + k] == EntryLine(entries[k]) && lines[n + 1 + k] != BLOCK_END
    {
      EntryLineParses(entries[k]);
    }
    assert BeginOf(lines) == n;
    assert EndOf(lines) == n + 1 + |entries|;
    assert lines[n + 1..EndOf(lines)] == EntryLines(entries);
  }

  lemma RenderIsAround(content: string, entries: seq<HostEntry>)
    ensures var lines := SplitLines(content);
      Render(content, entries) == JoinCRLF(Before(lines) + RenderBlock(entries) + After(lines))
  {
    hide RenderBlock;
    hide SplitLines;
    hide JoinCRLF;
    hide Find;
    var lines := SplitLines(content);
    var block := RenderBlock(entries);
    assert Before(lines) + block + [] == Before(lines) + block;
    assert lines[..|lines|] == lines;
  }

  lemma MarkersAreLines()
    ensures OneLine(BLOCK_BEGIN) && OneLine(BLOCK_END)
  {
    assert forall i :: 0 <= i < |BLOCK_BEGIN| ==> BLOCK_BEGIN[i] != '\n';
    assert forall i :: 0 <= i < |BLOCK_END| ==> BLOCK_END[i] != '\n';
  }

  lemma BlockIsLines(entries: seq<HostEntry>)
    requires PrintableEach(entries)
    ensures OneLineEach(RenderBlock(entries))
  {
    hide Printable;
    hide EntryLine;
    MarkersAreLines();
    forall i | 0 <= i < |entries| ensures OneLine(EntryLines(entries)[i]) { EntryLineParses(entries[i]); }
  }

  /** Rendering replaces the block and keeps the lines around it, in order. */
  lemma RenderedLines(content: string, entries: seq<HostEntry>)
    requires PrintableEach(entries)
    ensures var lines := SplitLines(content);
      SplitLines(Render(content, entries)) == Before(lines) + RenderBlock(entries) + After(lines)
  {
    hide SplitLines;
    hide JoinCRLF;
    hide Find;
    hide Printable;
    var lines := SplitLines(content);
    var block := RenderBlock(entries);
    BlockIsLines(entries);
    RenderIsAround(content, entries);
    LinesRoundTrip(Before(lines) + block + After(lines));
  }

  /** What lies outside the block is the same before and after a write. */
  lemma OutsideIsKept(content: string, entries: seq<HostEntry>)
    requires PrintableEach(entries)
    ensures var was, now := SplitLines(content), SplitLines(Render(content, entries));
      if entries == [] then now == Before(was) + After(was)
      else Before(now) == Before(was) && After(now) == After(was)
  {
    hide SplitLines;
    hide JoinCRLF;
    hide Find;
    hide Printable;
    RenderedLines(content, entries);
    if entries == [] {
    } else {
      Layout(Before(SplitLines(content)), entries, After(SplitLines(content)));
    }
  }

  /** What was printed is read back. */
  lemma PrintThenParse(content: string, entries: seq<HostEntry>)
    requires entries != [] && PrintableEach(entries)
    ensures Parse(Render(content, entries)) == entries
  {
    hide SplitLines;
    hide JoinCRLF;
    hide Find;
    hide Printable;
    RenderedLines(content, entries);
    Layout(Before(SplitLines(content)), entries, After(SplitLines(content)));
    EntriesParse(entries);
  }

  /** Only the last write counts. */
  lemma LastWriteWins(content: string, a: seq<HostEntry>, b: seq<HostEntry>)
    requires a != [] && PrintableEach(a)
    ensures Render(Render(content, a), b) == Render(content, b)
  {
    hide SplitLines;
    hide JoinCRLF;
    hide Find;
    hide Printable;
    var lines := SplitLines(content);
    var now := SplitLines(Render(content, a));
    OutsideIsKept(content, a);
    RenderIsAround(content, b);
    RenderIsAround(Render(content, a), b);
  }

  /**
   * Only the first block is managed: after its removal the next block in the lines behind it is read, so
   * nothing is read exactly when there is none with entries.
   */
  lemma RemovalReadsTheNextBlock(content: string)
    ensures Parse(Render(content, [])) == ParseBlock(After(SplitLines(content)))
  {
    hide SplitLines;
    hide JoinCRLF;
    hide Find;
    RenderedLines(content, []);
    var lines := SplitLines(content);
    assert Before(lines) + [] + After(lines) == Before(lines) + After(lines);
    PrefixWithoutBegin(Before(lines), After(lines));
  }

  lemma {:induction false} FindShifted(prefix: seq<string>, lines: seq<string>, i: nat, marker: string)
    requires i <= |lines|
    ensures Find(prefix + lines, |prefix| + i, marker) == |prefix| + Find(lines, i, marker)
    decreases |lines| - i
  {
    if i == |lines| {
    } else {
      FindShifted(prefix, lines, i + 1, marker);
    }
  }

  lemma {:induction false} FindAfter(prefix: seq<string>, lines: seq<string>, i: nat, marker: string)
    requires i <= |prefix| && marker !in prefix
    ensures Find(prefix + lines, i, marker) == |prefix| + Find(lines, 0, marker)
    decreases |prefix| - i
  {
    if i < |prefix| {
      assert (prefix + lines)[i] == prefix[i] && prefix[i] in prefix;
      FindAfter(prefix, lines, i + 1, marker);
    } else {
      FindShifted(prefix, lines, 0, marker);
    }
  }

  lemma PrefixWithoutBegin(prefix: seq<string>, lines: seq<string>)
    requires BLOCK_BEGIN !in prefix
    ensures ParseBlock(prefix + lines) == ParseBlock(lines)
  {
    hide ParseEach;
    hide Find;
    var all := prefix + lines;
    FindAfter(prefix, lines, 0, BLOCK_BEGIN);
    if BeginOf(lines) < |lines| {
      FindShifted(prefix, lines, BeginOf(lines) + 1, BLOCK_END);
      assert EndOf(all) == |prefix| + EndOf(lines);
      if EndOf(lines) < |lines| {
        assert all[BeginOf(all) + 1..EndOf(all)] == lines[BeginOf(lines) + 1..EndOf(lines)];
      }
    }
  }

  function Count(lines: seq<string>, marker: string): nat {
    if lines == [] then 0
    else (if lines[0] == marker then 1 else 0) + Count(lines[1..], marker)
  }

  /** With at most one begin marker the removed block was the only one. */
  lemma SingleBlockIsRemoved(content: string)
    requires Count(SplitLines(content), BLOCK_BEGIN) <= 1
    ensures Parse(Render(content, [])) == []
  {
    RemovalReadsTheNextBlock(content);
    var lines := SplitLines(content);
    if After(lines) != [] { AtMostOne(lines, BeginOf(lines), EndOf(lines) + 1); }
  }

  lemma {:induction false} AtMostOne(lines: seq<string>, i: nat, j: nat)
    requires i < j <= |lines| && lines[i] == BLOCK_BEGIN && Count(lines, BLOCK_BEGIN) <= 1
    ensures BLOCK_BEGIN !in lines[j..]
  {
    if i == 0 {
      CountZero(lines[1..]);
      assert lines[j..] == lines[1..][j - 1..];
    } else {
      AtMostOne(lines[1..], i - 1, j - 1);
      assert lines[j..] == lines[1..][j - 1..];
    }
  }

  lemma {:induction false} CountZero(lines: seq<string>)
    ensures Count(lines, BLOCK_BEGIN) == 0 <==> BLOCK_BEGIN !in lines
  {
    if lines == [] {
    } else {
      CountZero(lines[1..]);
    }
  }

  // ---------- The transaction ----------

  /** Digests are injective, so one stands for the entries it was taken of. */
  datatype Digest = Digest(entries: seq<HostEntry>)

  datatype WriteResult = Written(digest: Digest) | Conflict(digest: Digest) | WriteFailed

  function Text(content: Option<string>): string { if content.None? then "" else content.value }

  /** The hosts file, which other programs edit at any time; `writes` counts our own replacements. */
  class ManagedHostsFile {
    var content: Option<string>
    ghost var writes: nat

    method Elsewhere()
      modifies `content
    {
      content := *;
    }

    /** Atomic replacement by a temporary file; a missing file reads as empty. */
    method Replace(text: string)
      modifies this
      ensures content == Some(text) && writes == old(writes) + 1
    {
      content := Some(text);
      writes := writes + 1;
    }

    /**
     * Replaces the block only if it still is the expected one, and still the one first seen when the file is
     * read again; `latest` is that second reading, whose other lines are kept. Otherwise nothing is written.
     * `readable` and `again` say whether the two readings succeed, `staged` whether the temporary file can be
     * written and `replaced` whether it can be renamed.
     */
    method WriteTransaction(entries: seq<HostEntry>, expected: Option<Digest>,
                            readable: bool, staged: bool, again: bool, replaced: bool)
      returns (result: WriteResult, ghost latest: string)
      requires PrintableEach(entries)
      modifies this
      ensures var current := Digest(Parse(Text(old(content))));
              result == if !readable then WriteFailed
                        else if expected.Some? && expected.value != current then Conflict(current)
                        else if !staged || !again then WriteFailed
                        else if Digest(Parse(latest)) != current then Conflict(Digest(Parse(latest)))
                        else if !replaced then WriteFailed
                        else Written(Digest(entries))
      ensures result.Written? ==>
                && content == Some(Render(latest, entries)) && writes == old(writes) + 1
                && (entries != [] ==> Parse(content.value) == entries)
      ensures !result.Written? ==> writes == old(writes)
    {
      latest := "";
      if !readable { return WriteFailed, latest; }
      var original := Text(content);
      var current := Digest(Parse(original));
      if expected.Some? && expected.value != current { return Conflict(current), latest; }
      if !staged { return WriteFailed, latest; }
      var file := Render(original, entries);
      Elsewhere();
      latest := Text(content);
      if !again { return WriteFailed, latest; }
      var text := Text(content);
      var now := Digest(Parse(text));
      if now != current { return Conflict(now), latest; }
      if text != original { file := Render(text, entries); }
      Elsewhere();
      if !replaced { return WriteFailed, latest; }
      Replace(file);
      if entries != [] { PrintThenParse(latest, entries); }
      result := Written(Digest(entries));
    }
  }
}
