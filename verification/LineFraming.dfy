/** Cutting a byte stream that arrives in chunks into lines. */
module LineFraming {
  predicate NoNewline(s: string) { '\n' !in s }

  /** `indexOf("\n")`. */
  function NewlineAt(s: string): (i: int)
    ensures -1 <= i < |s|
    ensures i == -1 <==> NoNewline(s)
    ensures i >= 0 ==> s[i] == '\n'
  {
    if s == "" then -1
    else if s[0] == '\n' then 0
    else if NewlineAt(s[1..]) < 0 then -1
    else NewlineAt(s[1..]) + 1
  }

  lemma {:induction false} FirstNewline(line: string, tail: string)
    requires NoNewline(line)
    ensures NewlineAt(Glue(line, tail)) == |line|
  {
    var s := Glue(line, tail);
    if line != "" {
      FirstNewline(line[1..], tail);
      assert s[1..] == Glue(line[1..], tail);
      assert line[0] in line;
    }
  }

  lemma {:induction false} BeforeNewline(s: string)
    ensures NewlineAt(s) >= 0 ==> NoNewline(s[..NewlineAt(s)])
  {
    var i := NewlineAt(s);
    if i > 0 {
      BeforeNewline(s[1..]);
      assert s[..i] == [s[0]] + s[1..][..i - 1];
    }
  }

  /** The complete lines of s, and the partial line behind them. */
  function Lines(s: string): seq<string>
    decreases |s|
  {
    var i := NewlineAt(s);
    if i < 0 then [] else [s[..i]] + Lines(s[i + 1..])
  }

  function Rest(s: string): string
    decreases |s|
  {
    var i := NewlineAt(s);
    if i < 0 then s else Rest(s[i + 1..])
  }

  function Glue(line: string, tail: string): string { line + "\n" + tail }

  function Join(lines: seq<string>): string {
    if lines == [] then "" else Glue(lines[0], Join(lines[1..]))
  }

  predicate Plain(lines: seq<string>) {
    lines == [] || (NoNewline(lines[0]) && Plain(lines[1..]))
  }

  lemma GlueMore(line: string, s: string, t: string)
    ensures Glue(line, s) + t == Glue(line, s + t)
  {
  }

  lemma SplitLine(line: string, tail: string)
    requires NoNewline(line)
    ensures Lines(Glue(line, tail)) == [line] + Lines(tail)
    ensures Rest(Glue(line, tail)) == Rest(tail)
  {
    var s := Glue(line, tail);
    FirstNewline(line, tail);
    assert s[..|line|] == line && s[|line| + 1..] == tail;
  }

  lemma CutLine(s: string) returns (line: string, tail: string)
    requires NewlineAt(s) >= 0
    ensures line == s[..NewlineAt(s)]
    ensures tail == s[NewlineAt(s) + 1..]
    ensures NoNewline(line)
    ensures s == Glue(line, tail)
    ensures |tail| < |s|
    ensures Lines(s) == [line] + Lines(tail)
    ensures Rest(s) == Rest(tail)
  {
    BeforeNewline(s);
    line, tail := s[..NewlineAt(s)], s[NewlineAt(s) + 1..];
  }

  /** Splitting loses nothing, and leaves no newline in a line or in the rest. */
  lemma {:induction false} SplitRejoins(s: string)
    ensures Join(Lines(s)) + Rest(s) == s
    ensures NoNewline(Rest(s))
    ensures Plain(Lines(s))
    decreases |s|
  {
    if NewlineAt(s) >= 0 {
      var line, tail := CutLine(s);
      SplitRejoins(tail);
      JoinFirst(line, Lines(tail));
      GlueMore(line, Join(Lines(tail)), Rest(tail));
    }
  }

  lemma JoinFirst(line: string, lines: seq<string>)
    ensures Join([line] + lines) == Glue(line, Join(lines))
    ensures NoNewline(line) && Plain(lines) ==> Plain([line] + lines)
  {
    assert ([line] + lines)[1..] == lines;
  }

  /** Whatever was joined from newline-free lines is split into those lines again. */
  lemma {:induction false} JoinSplits(lines: seq<string>, rest: string)
    requires NoNewline(rest) && Plain(lines)
    ensures Lines(Join(lines) + rest) == lines && Rest(Join(lines) + rest) == rest
  {
    if lines == [] {
      assert Join(lines) + rest == rest;
    } else {
      var line, tail := lines[0], Join(lines[1..]) + rest;
      JoinSplits(lines[1..], rest);
      GlueMore(line, Join(lines[1..]), rest);
      assert Join(lines) + rest == Glue(line, tail);
      SplitLine(line, tail);
      assert [line] + lines[1..] == lines;
    }
  }

  /** A chunk only continues the partial line: splitting piecewise is splitting the whole. */
  lemma {:induction false} SplitChunk(s: string, chunk: string)
    ensures Lines(s + chunk) == Lines(s) + Lines(Rest(s) + chunk)
    ensures Rest(s + chunk) == Rest(Rest(s) + chunk)
    decreases |s|
  {
    if NewlineAt(s) >= 0 {
      var line, tail := CutLine(s);
      SplitChunk(tail, chunk);
      GlueMore(line, tail, chunk);
      SplitLine(line, tail + chunk);
      Reassociate([line], Lines(tail), Lines(Rest(tail) + chunk));
    }
  }

  lemma Reassociate(a: seq<string>, b: seq<string>, c: seq<string>)
    ensures a + (b + c) == (a + b) + c
  {
  }

  function Concat(chunks: seq<string>): string {
    if chunks == [] then "" else Concat(chunks[..|chunks| - 1]) + chunks[|chunks| - 1]
  }

  /** Cuts the first complete line off a buffer. */
  method NextLine(buffer: string) returns (found: bool, line: string, rest: string)
    ensures found ==> NoNewline(line) && buffer == Glue(line, rest)
    ensures !found ==> NoNewline(buffer)
  {
    var newline := NewlineAt(buffer);
    if newline < 0 { return false, "", ""; }
    BeforeNewline(buffer);
    return true, buffer[..newline], buffer[newline + 1..];
  }

  /** The partial line a reader carries from chunk to chunk. */
  class LineReader {
    var buffer: string

    constructor ()
      ensures buffer == ""
    {
      buffer := "";
    }

    /** The lines that one chunk of output completes. */
    method OnData(chunk: string) returns (lines: seq<string>)
      modifies this
      ensures lines == Lines(old(buffer) + chunk) && buffer == Rest(old(buffer) + chunk)
    {
      buffer := buffer + chunk;
      ghost var whole := buffer;
      lines := [];
      var found, line, rest := NextLine(buffer);
      while found
        invariant found ==> NoNewline(line) && buffer == Glue(line, rest)
        invariant !found ==> NoNewline(buffer)
        invariant Split(whole, lines, buffer)
        decreases |buffer|
      {
        OneMoreLine(whole, lines, buffer, line, rest);
        lines, buffer := lines + [line], rest;
        found, line, rest := NextLine(buffer);
      }
      AllSplit(whole, lines, buffer);
    }

    /** However the output is cut into chunks, the lines are those of the whole output. */
    method ReadAll(chunks: seq<string>) returns (lines: seq<string>)
      requires NoNewline(buffer)
      modifies this
      ensures lines == Lines(old(buffer) + Concat(chunks)) && buffer == Rest(old(buffer) + Concat(chunks))
    {
      ghost var start := buffer;
      lines := [];
      assert start + Concat(chunks[..0]) == start;
      for k := 0 to |chunks|
        invariant lines == Lines(start + Concat(chunks[..k])) && buffer == Rest(start + Concat(chunks[..k]))
      {
        var more := OnData(chunks[k]);
        NextChunk(start, chunks, k);
        lines := lines + more;
      }
      assert chunks[..|chunks|] == chunks;
    }
  }

  /** The whole is the lines cut off so far, followed by the buffer. */
  ghost predicate Split(whole: string, lines: seq<string>, buffer: string) {
    whole == Join(lines) + buffer && Plain(lines)
  }

  lemma {:induction false} JoinAppend(lines: seq<string>, line: string, rest: string)
    requires Plain(lines) && NoNewline(line)
    ensures Join(lines + [line]) + rest == Join(lines) + Glue(line, rest)
    ensures Plain(lines + [line])
  {
    if lines == [] {
      assert [line][1..] == [];
      assert Glue(line, "") + rest == Glue(line, rest);
    } else {
      JoinAppend(lines[1..], line, rest);
      assert (lines + [line])[1..] == lines[1..] + [line];
      GlueMore(lines[0], Join(lines[1..] + [line]), rest);
      GlueMore(lines[0], Join(lines[1..]), Glue(line, rest));
    }
  }

  lemma OneMoreLine(whole: string, lines: seq<string>, buffer: string, line: string, rest: string)
    requires Split(whole, lines, buffer) && NoNewline(line) && buffer == Glue(line, rest)
    ensures Split(whole, lines + [line], rest)
  {
    JoinAppend(lines, line, rest);
  }

  lemma AllSplit(whole: string, lines: seq<string>, buffer: string)
    requires Split(whole, lines, buffer) && NoNewline(buffer)
    ensures lines == Lines(whole) && buffer == Rest(whole)
  {
    JoinSplits(lines, buffer);
  }

  lemma NextChunk(start: string, chunks: seq<string>, k: nat)
    requires k < |chunks|
    ensures var before, after := start + Concat(chunks[..k]), start + Concat(chunks[..k + 1]);
            && Lines(after) == Lines(before) + Lines(Rest(before) + chunks[k])
            && Rest(after) == Rest(Rest(before) + chunks[k])
  {
    assert chunks[..k + 1][..k] == chunks[..k];
    assert start + Concat(chunks[..k + 1]) == (start + Concat(chunks[..k])) + chunks[k];
    SplitChunk(start + Concat(chunks[..k]), chunks[k]);
  }
}
