/**
 * The line writer behind stdout, stderr and slog: it cuts a byte stream into log lines, keeping at most
 * LINE_BYTES of each, however the stream is cut into Write calls. Characters stand for bytes.
 */
module SourceWriter {
  import opened Common

  const LINE_BYTES := 64 * 1024 - 128

  // ---------- Lines of a stream ----------

  predicate Unbroken(s: string) { forall k :: 0 <= k < |s| ==> s[k] != '\n' }

  /** The position of the first newline, or the length. */
  function Index(s: string): (i: nat)
    ensures i <= |s| && forall k :: 0 <= k < i ==> s[k] != '\n'
    ensures i < |s| ==> s[i] == '\n'
  {
    if s == "" || s[0] == '\n' then 0 else 1 + Index(s[1..])
  }

  predicate Complete(s: string) { Index(s) < |s| }

  /** The first line of a stream, and what follows its newline. */
  function First(s: string): (line: string)
    ensures Unbroken(line)
  {
    s[..Index(s)]
  }

  function More(s: string): (more: string)
    requires Complete(s)
    ensures s == First(s) + "\n" + more && |more| < |s|
  {
    s[Index(s) + 1..]
  }

  function Lines(s: string): seq<string>
    decreases |s|
  {
    if Complete(s) then [First(s)] + Lines(More(s)) else []
  }

  /** What follows the last newline. */
  function Rest(s: string): (r: string)
    ensures Unbroken(r)
    decreases |s|
  {
    if Complete(s) then Rest(More(s)) else s
  }

  function Glue(lines: seq<string>): string { if lines == [] then "" else lines[0] + "\n" + Glue(lines[1..]) }

  /** Lines and rest say what the stream was, and nothing else does: no line holds a newline. */
  lemma {:induction false} LinesAreTheStream(s: string)
    ensures Glue(Lines(s)) + Rest(s) == s
    ensures forall i :: 0 <= i < |Lines(s)| ==> Unbroken(Lines(s)[i])
    decreases |s|
  {
    hide Index;
    hide Unbroken;
    if Complete(s) {
      var line, more := First(s), More(s);
      LinesAreTheStream(more);
      assert Lines(s)[1..] == Lines(more);
      GlueOne(line, Lines(more), Rest(more));
    }
  }

  lemma GlueOne(line: string, lines: seq<string>, rest: string)
    ensures Glue([line] + lines) + rest == line + "\n" + (Glue(lines) + rest)
  {
    assert ([line] + lines)[1..] == lines;
  }

  /** A line is cut off at its newline, whatever follows. */
  lemma CutLine(line: string, more: string)
    requires Unbroken(line)
    ensures Complete(line + "\n" + more) && First(line + "\n" + more) == line && More(line + "\n" + more) == more
  {
    var s := line + "\n" + more;
    assert s[|line|] == '\n' && forall k :: 0 <= k < |line| ==> s[k] == line[k];
    assert Index(s) == |line|;
    assert s[..|line|] == line && s[|line| + 1..] == more;
  }

  lemma NotComplete(s: string)
    ensures Complete(s) <==> !Unbroken(s)
  {
    if Complete(s) { assert s[Index(s)] == '\n'; }
  }

  /** The first line of a stream that continues an unfinished line. */
  lemma FirstLine(rest: string, p: string)
    requires Unbroken(rest)
    ensures if Complete(p) then
              Lines(rest + p) == [rest + First(p)] + Lines(More(p)) && Rest(rest + p) == Rest(More(p))
            else Lines(rest + p) == [] && Rest(rest + p) == rest + p
  {
    hide Index;
    if Complete(p) {
      var line := rest + First(p);
      assert rest + p == line + "\n" + More(p);
      CutLine(line, More(p));
    } else {
      NotComplete(p);
      NotComplete(rest + p);
    }
  }

  /** One line more at the front of a stream. */
  lemma Prepend(line: string, more: string)
    requires Unbroken(line)
    ensures Lines(line + "\n" + more) == [line] + Lines(more) && Rest(line + "\n" + more) == Rest(more)
  {
    hide Index;
    hide Unbroken;
    CutLine(line, more);
  }

  /** Only the unfinished line matters to what comes next. */
  lemma {:induction false} CutAnywhere(a: string, b: string)
    ensures Lines(a + b) == Lines(a) + Lines(Rest(a) + b)
    ensures Rest(a + b) == Rest(Rest(a) + b)
    decreases |a|
  {
    hide Index;
    hide Unbroken;
    hide First;
    if Complete(a) {
      CutAnywhere(More(a), b);
      CutBehindLine(First(a), More(a), b);
    }
  }

  lemma CutBehindLine(line: string, more: string, b: string)
    requires Unbroken(line)
    requires Lines(more + b) == Lines(more) + Lines(Rest(more) + b) && Rest(more + b) == Rest(Rest(more) + b)
    ensures var a := line + "\n" + more;
      Lines(a + b) == Lines(a) + Lines(Rest(a) + b) && Rest(a + b) == Rest(Rest(a) + b)
  {
    hide Lines;
    hide Rest;
    hide Unbroken;
    Prepend(line, more);
    Prepend(line, more + b);
    assert line + "\n" + more + b == line + "\n" + (more + b);
    AppendAssociates(line, Lines(more), Lines(Rest(more) + b));
  }

  lemma AppendAssociates(line: string, a: seq<string>, b: seq<string>)
    ensures [line] + (a + b) == ([line] + a) + b
  {
  }

  // ---------- What is logged ----------

  /** The line, or its first LINE_BYTES bytes and the number of the others. */
  function Logged(line: string): string {
    if |line| <= LINE_BYTES then line
    else line[..LINE_BYTES] + " ... [truncated " + Decimal(|line| - LINE_BYTES) + " bytes]"
  }

  /** A cut line says how much it lacks: its marker is a numeral for exactly the bytes that are not there. */
  lemma TruncationIsExact(line: string)
    requires |line| > LINE_BYTES
    ensures var count := Decimal(|line| - LINE_BYTES);
      && Logged(line) == line[..LINE_BYTES] + " ... [truncated " + count + " bytes]"
      && IsNumeral(count) && LINE_BYTES + Number(count) == |line|
  {
    DigitsReadBack(|line| - LINE_BYTES);
  }

  function LoggedEach(lines: seq<string>): (r: seq<string>)
    ensures |r| == |lines| && forall i :: 0 <= i < |lines| ==> r[i] == Logged(lines[i])
  {
    seq(|lines|, i requires 0 <= i < |lines| => Logged(lines[i]))
  }

  function Concat(chunks: seq<string>): string {
    if chunks == [] then "" else Concat(chunks[..|chunks| - 1]) + chunks[|chunks| - 1]
  }

  lemma LoggedAppend(a: seq<string>, b: seq<string>)
    ensures LoggedEach(a + b) == LoggedEach(a) + LoggedEach(b)
  {
    hide Logged;
  }

  /** The stream a sequence of chunks continues an unfinished line to. */
  function Stream(start: string, chunks: seq<string>): string { start + Concat(chunks) }

  lemma NoChunks(start: string, chunks: seq<string>)
    requires Unbroken(start)
    ensures LoggedEach(Lines(Stream(start, chunks[..0]))) == [] && Rest(Stream(start, chunks[..0])) == start
  {
    FirstLine(start, "");
    assert Stream(start, chunks[..0]) == start + "";
  }

  lemma OneChunkMore(start: string, chunks: seq<string>, i: nat)
    requires i < |chunks|
    ensures var was, now := Stream(start, chunks[..i]), Stream(start, chunks[..i + 1]);
      && LoggedEach(Lines(now)) == LoggedEach(Lines(was)) + LoggedEach(Lines(Rest(was) + chunks[i]))
      && Rest(now) == Rest(Rest(was) + chunks[i])
  {
    hide Lines;
    hide Rest;
    hide Logged;
    var was := Stream(start, chunks[..i]);
    assert chunks[..i + 1][..i] == chunks[..i];
    assert was + chunks[i] == Stream(start, chunks[..i + 1]);
    CutAnywhere(was, chunks[i]);
    LoggedAppend(Lines(was), Lines(Rest(was) + chunks[i]));
  }

  class SourceWriter {
    var buffer: string
    var dropping: bool
    var dropped: int
    var log: seq<string>
    /** The unfinished line as it was written. */
    ghost var rest: string

    /** The state is a function of the unfinished line. */
    ghost predicate Valid()
      reads this
    {
      && Unbroken(rest)
      && buffer == (if |rest| <= LINE_BYTES then rest else rest[..LINE_BYTES])
      && (dropping <==> |rest| > LINE_BYTES)
      && dropped == (if |rest| <= LINE_BYTES then 0 else |rest| - LINE_BYTES)
    }

    constructor ()
      ensures Valid() && rest == "" && log == []
    {
      buffer, dropping, dropped, log, rest := "", false, 0, [], "";
    }

    method FlushTruncated()
      requires Valid() && dropping
      modifies this
      ensures Valid() && rest == "" && log == old(log) + [Logged(old(rest))]
    {
      log := log + [buffer + " ... [truncated " + Decimal(dropped) + " bytes]"];
      buffer, dropping, dropped := "", false, 0;
      rest := "";
    }

    /** Takes a piece without a newline into the unfinished line. */
    method Take(part: string)
      requires Valid() && !dropping && Unbroken(part)
      modifies this
      ensures Valid() && rest == old(rest) + part && log == old(log)
    {
      var remaining := LINE_BYTES - |buffer|;
      if remaining > |part| { remaining := |part|; }
      if remaining > 0 { buffer := buffer + part[..remaining]; }
      if remaining < |part| {
        dropping := true;
        dropped := dropped + |part| - remaining;
      }
      rest := rest + part;
    }

    /** One round of the write loop: up to the next newline, or to the end of the chunk. */
    method Round(p: string) returns (more: string)
      requires Valid() && p != ""
      modifies this
      ensures Valid() && |more| < |p|
      ensures if Complete(p) then more == More(p) && rest == "" && log == old(log) + [Logged(old(rest) + First(p))]
              else more == "" && rest == old(rest) + p && log == old(log)
    {
      var index := Index(p);
      if dropping {
        dropped := dropped + index;
        rest := rest + p[..index];
        if index == |p| { return ""; }
        FlushTruncated();
        return p[index + 1..];
      }
      Take(p[..index]);
      if index == |p| { return ""; }
      if dropping {
        FlushTruncated();
      } else {
        log := log + [buffer];
        buffer, rest := "", "";
      }
      more := p[index + 1..];
    }

    /** Logs the lines the chunk completes; what is left over depends on the unfinished line only. */
    method Write(chunk: string) returns (written: nat)
      requires Valid()
      modifies this
      ensures Valid() && written == |chunk|
      ensures log == old(log) + LoggedEach(Lines(old(rest) + chunk))
      ensures rest == Rest(old(rest) + chunk)
    {
      hide Lines;
      hide Rest;
      hide First;
      hide Logged;
      written := |chunk|;
      var p := chunk;
      ghost var finished: seq<string> := [];
      ghost var start := rest;
      while p != ""
        invariant Valid()
        invariant log == old(log) + LoggedEach(finished)
        invariant Lines(start + chunk) == finished + Lines(rest + p)
        invariant Rest(start + chunk) == Rest(rest + p)
        decreases |p|
      {
        FirstLine(rest, p);
        ghost var line := rest + First(p);
        ghost var ended := Complete(p);
        p := Round(p);
        if ended {
          assert rest + p == p;
          assert LoggedEach(finished + [line]) == LoggedEach(finished) + [Logged(line)];
          finished := finished + [line];
        } else {
          assert rest + p == rest;
        }
      }
      FirstLine(rest, "");
      assert rest + p == rest;
    }

    /** However a stream is cut into writes, the same lines are logged and the same state is left. */
    method WriteEach(chunks: seq<string>)
      requires Valid()
      modifies this
      ensures Valid()
      ensures log == old(log) + LoggedEach(Lines(Stream(old(rest), chunks)))
      ensures rest == Rest(Stream(old(rest), chunks))
    {
      hide *;
      ghost var start := rest;
      Unfinished();
      NoChunks(start, chunks);
      for i := 0 to |chunks|
        invariant Valid()
        invariant log == old(log) + LoggedEach(Lines(Stream(start, chunks[..i])))
        invariant rest == Rest(Stream(start, chunks[..i]))
      {
        OneChunkMore(start, chunks, i);
        var _ := Write(chunks[i]);
      }
      assert chunks[..|chunks|] == chunks;
    }

    lemma Unfinished()
      requires Valid()
      ensures Unbroken(rest)
    {
    }
  }
}
