/**
 The transcript follower (internal/transcript/tailer.go): how one growing file is cut into the chunks given
 to processLine, and what it means for a reader to have caught up with a byte count.
 */
module Tailer {
  import opened Wrappers
  import opened TurnStore

  type Text = seq<char>

  const NEWLINE := '\n'
  const MAX_PARTIAL_BYTES: nat := 16 * 1024 * 1024

  // ---------------------------------------------------------------- chunks and lines

  function Flat(chunks: seq<Text>): Text {
    if chunks == [] then [] else Flat(chunks[..|chunks| - 1]) + chunks[|chunks| - 1]
  }

  lemma FlatAppend(chunks: seq<Text>, c: Text)
    ensures Flat(chunks + [c]) == Flat(chunks) + c
  {
    assert (chunks + [c])[..|chunks|] == chunks;
  }

  predicate NoNewline(c: Text) {
    forall i :: 0 <= i < |c| ==> c[i] != NEWLINE
  }

  /** One line with its newline. */
  predicate IsLine(c: Text) {
    c != [] && c[|c| - 1] == NEWLINE && forall i :: 0 <= i < |c| - 1 ==> c[i] != NEWLINE
  }

  /** What processLine may be given: a line, or a piece without a newline that reached the cap. */
  predicate IsChunk(c: Text, cap: nat) {
    IsLine(c) || (NoNewline(c) && |c| >= cap)
  }

  /** The newline-terminated lines of s, in order; a last piece without a newline is not one. */
  function Lines(s: Text): seq<Text> {
    if s == [] then []
    else if s[|s| - 1] != NEWLINE then Lines(s[..|s| - 1])
    else
      var n := LastLine(s);
      Lines(s[..|s| - n]) + [s[|s| - n..]]
  }

  /** The length of the line that ends s. */
  function LastLine(s: Text): (n: nat)
    requires s != [] && s[|s| - 1] == NEWLINE
    ensures 0 < n <= |s| && IsLine(s[|s| - n..])
    ensures n < |s| ==> s[|s| - n - 1] == NEWLINE
  {
    if |s| == 1 || s[|s| - 2] == NEWLINE then 1
    else
      var m := Run(s, 1);
      m
  }

  /** Extends the last n characters of s back to the newline before them. */
  function Run(s: Text, n: nat): (m: nat)
    requires 0 < n <= |s| && IsLine(s[|s| - n..])
    ensures n <= m <= |s| && IsLine(s[|s| - m..])
    ensures m < |s| ==> s[|s| - m - 1] == NEWLINE
    decreases |s| - n
  {
    if n == |s| || s[|s| - n - 1] == NEWLINE then n
    else
      assert s[|s| - n - 1..] == [s[|s| - n - 1]] + s[|s| - n..];
      Run(s, n + 1)
  }

  /** The last line of a text runs back to the newline before it. */
  lemma LastLineIs(s: Text, c: Text)
    requires IsLine(c) && |c| <= |s| && s[|s| - |c|..] == c
    requires |c| < |s| ==> s[|s| - |c| - 1] == NEWLINE
    ensures s[|s| - 1] == NEWLINE && LastLine(s) == |c|
  {
    assert s[|s| - 1] == c[|c| - 1];
    var line := s[|s| - LastLine(s)..];
    assert IsLine(line);
  }

  /** A text is cut into lines in one way only. */
  lemma {:induction false} LinesUnique(chunks: seq<Text>)
    requires forall c :: c in chunks ==> IsLine(c)
    ensures Lines(Flat(chunks)) == chunks
  {
    if chunks != [] {
      var front, c := chunks[..|chunks| - 1], chunks[|chunks| - 1];
      LinesUnique(front);
      FlatEnds(front);
      LinesOf(Flat(front), c);
      assert chunks == front + [c];
    }
  }

  lemma LinesOf(front: Text, c: Text)
    requires IsLine(c) && (front == [] || front[|front| - 1] == NEWLINE)
    ensures Lines(front + c) == Lines(front) + [c]
  {
    var s := front + c;
    assert s[|s| - |c|..] == c && s[..|s| - |c|] == front;
    LastLineIs(s, c);
  }

  lemma FlatEnds(chunks: seq<Text>)
    requires forall c :: c in chunks ==> IsLine(c)
    ensures Flat(chunks) != [] ==> Flat(chunks)[|Flat(chunks)| - 1] == NEWLINE
  {
    if chunks != [] {
      var c := chunks[|chunks| - 1];
      assert c in chunks;
      assert Flat(chunks)[|Flat(chunks)| - 1] == c[|c| - 1];
    }
  }

  /** Every newline in the processed text ends a chunk: the line it closes has been given to processLine. */
  lemma {:induction false} NewlineEndsChunk(chunks: seq<Text>, cap: nat, i: nat) returns (k: nat)
    requires forall c :: c in chunks ==> IsChunk(c, cap)
    requires i < |Flat(chunks)| && Flat(chunks)[i] == NEWLINE
    ensures k < |chunks| && |Flat(chunks[..k + 1])| == i + 1 && IsLine(chunks[k])
  {
    var front, c := chunks[..|chunks| - 1], chunks[|chunks| - 1];
    if i < |Flat(front)| {
      k := NewlineEndsChunk(front, cap, i);
      assert front[..k + 1] == chunks[..k + 1];
    } else {
      var j := i - |Flat(front)|;
      assert c[j] == NEWLINE && c in chunks;
      k := |chunks| - 1;
      assert chunks[..k + 1] == chunks;
    }
  }

  // ---------------------------------------------------------------- Follow

  /** ReadBytes('\n') on what is visible from the offset on: up to a newline, or all of it and end of file. */
  method ReadLine(file: Text, offset: nat, visible: nat) returns (line: Text, eof: bool)
    requires offset <= visible <= |file|
    ensures |line| <= visible - offset && line == file[offset..offset + |line|]
    ensures !eof ==> IsLine(line)
    ensures eof ==> NoNewline(line) && offset + |line| == visible
  {
    var i := offset;
    while i < visible
      invariant offset <= i <= visible
      invariant NoNewline(file[offset..i])
    {
      assert file[offset..i + 1] == file[offset..i] + [file[i]];
      if file[i] == NEWLINE {
        line := file[offset..i + 1];
        assert line[..|line| - 1] == file[offset..i];
        return line, false;
      }
      i := i + 1;
    }
    return file[offset..visible], true;
  }

  lemma Sliced(file: Text, start: nat, middle: nat, line: Text)
    requires start <= middle && middle + |line| <= |file| && line == file[middle..middle + |line|]
    requires NoNewline(file[start..middle])
    ensures file[..start] + (file[start..middle] + line) == file[..middle + |line|]
    ensures file[start..middle] + line == file[start..middle + |line|]
    ensures IsLine(line) ==> IsLine(file[start..middle] + line)
    ensures NoNewline(line) ==> NoNewline(file[start..middle] + line)
  {
  }

  /**
   One file, without reopening it. `offset` is how far the file has been read; `partial` is read but not
   processed; `processed` lists what processLine was given; `uncounted` bytes of that are not in readPos yet.
   */
  class Follower {
    const cap: nat
    var readPos: nat
    var offset: nat
    var partial: Text
    var processed: seq<Text>
    var uncounted: nat

    /** The chunks processed so far are a cutting of the first n bytes. */
    ghost predicate Cut(file: Text, n: nat)
      reads this
    {
      && n <= |file| && Flat(processed) == file[..n]
      && forall c :: c in processed ==> IsChunk(c, cap)
    }

    /** What holds at every moment, also between processLine's return and the counting of its bytes. */
    ghost predicate Underway(file: Text)
      reads this
    {
      && 0 < cap
      && Cut(file, readPos + uncounted)
      && readPos + uncounted <= offset <= |file|
      && partial == file[readPos + uncounted..offset]
      && NoNewline(partial) && |partial| < cap
    }

    ghost predicate Valid(file: Text)
      reads this
    {
      Underway(file) && uncounted == 0
    }

    constructor (cap: nat := MAX_PARTIAL_BYTES)
      requires 0 < cap
      ensures forall file: Text :: Valid(file)
      ensures this.cap == cap && processed == [] && offset == 0
    {
      this.cap := cap;
      readPos, offset, partial, processed, uncounted := 0, 0, [], [], 0;
    }

    /** processLine; its bytes are counted later. */
    method ProcessLine(file: Text, raw: Text)
      requires uncounted == 0 && Cut(file, readPos) && IsChunk(raw, cap)
      requires readPos + |raw| <= |file| && raw == file[readPos..readPos + |raw|]
      modifies `processed, `uncounted
      ensures Cut(file, readPos + uncounted)
      ensures processed == old(processed) + [raw] && uncounted == |raw|
    {
      FlatAppend(processed, raw);
      assert file[..readPos] + raw == file[..readPos + |raw|];
      processed, uncounted := processed + [raw], |raw|;
    }

    /** readPos.Add. */
    method Count(file: Text)
      requires Underway(file)
      modifies `readPos, `uncounted
      ensures Valid(file) && readPos == old(readPos + uncounted)
    {
      readPos, uncounted := readPos + uncounted, 0;
    }

    /** A whole line was read: what was buffered and the line are processed together. */
    method TakeLine(file: Text, line: Text)
      requires Valid(file) && IsLine(line)
      requires offset + |line| <= |file| && line == file[offset..offset + |line|]
      modifies this
      ensures Underway(file) && readPos == old(readPos) && offset == old(offset) + |line| && readPos + uncounted == offset
      ensures |processed| == |old(processed)| + 1 && old(processed) <= processed && IsLine(processed[|old(processed)|])
    {
      var full := partial + line;
      Sliced(file, readPos, offset, line);
      partial := [];
      ProcessLine(file, full);
      offset := offset + |line|;
    }

    /** The file ended within a line: it is buffered, and processed when the buffer is full. */
    method TakePart(file: Text, part: Text)
      requires Valid(file) && NoNewline(part)
      requires offset + |part| <= |file| && part == file[offset..offset + |part|]
      modifies this
      ensures Underway(file) && readPos == old(readPos) && offset == old(offset) + |part| && old(processed) <= processed
      ensures processed == old(processed) || (|processed| == |old(processed)| + 1 && partial == [])
    {
      var full := partial + part;
      Sliced(file, readPos, offset, part);
      offset := offset + |part|;
      partial := full;
      if |partial| >= cap {
        ProcessLine(file, partial);
        partial := [];
      }
    }

    /** The first half of one turn of Follow's loop, when the first `visible` bytes of the file have been written. */
    method Read(file: Text, visible: nat) returns (eof: bool)
      requires Valid(file) && offset <= visible <= |file|
      modifies this
      ensures Underway(file) && readPos == old(readPos)
      ensures old(processed) <= processed && offset <= visible
      ensures eof ==> offset == visible
      ensures !eof ==> offset > old(offset) && readPos + uncounted == offset
      ensures !eof ==> |processed| == |old(processed)| + 1 && IsLine(processed[|old(processed)|])
      ensures eof ==> processed == old(processed) || (|processed| == |old(processed)| + 1 && partial == [])
    {
      var line;
      line, eof := ReadLine(file, offset, visible);
      if |line| > 0 {
        if !eof {
          TakeLine(file, line);
        } else {
          TakePart(file, line);
        }
      }
    }

    /** One turn of Follow's loop. */
    method Poll(file: Text, visible: nat) returns (eof: bool)
      requires Valid(file) && offset <= visible <= |file|
      modifies this
      ensures Valid(file)
      ensures old(processed) <= processed && offset <= visible
      ensures eof ==> offset == visible
      ensures !eof ==> offset > old(offset) && readPos == offset
      ensures !eof ==> |processed| == |old(processed)| + 1 && IsLine(processed[|old(processed)|])
      ensures eof ==> processed == old(processed) || (|processed| == |old(processed)| + 1 && partial == [])
    {
      eof := Read(file, visible);
      Count(file);
    }

    /** Follow: at each size the file is seen to have, read on until end of file. */
    method Follow(file: Text, sizes: seq<nat>)
      requires Valid(file)
      requires forall i :: 0 <= i < |sizes| ==> offset <= sizes[i] <= |file|
      requires forall i, j :: 0 <= i < j < |sizes| ==> sizes[i] <= sizes[j]
      modifies this
      ensures Valid(file)
      ensures offset == if sizes == [] then old(offset) else sizes[|sizes| - 1]
    {
      var i := 0;
      while i < |sizes|
        invariant 0 <= i <= |sizes| && Valid(file)
        invariant offset == if i == 0 then old(offset) else sizes[i - 1]
      {
        var eof := false;
        while !eof
          invariant Valid(file) && offset <= sizes[i]
          invariant eof ==> offset == sizes[i]
          decreases sizes[i] - offset, !eof
        {
          eof := Poll(file, sizes[i]);
        }
        i := i + 1;
      }
    }

    /** The next half turn of Follow's loop: what was processed is counted, or more is read. */
    method HalfTurn(file: Text, visible: nat)
      requires Underway(file) && visible <= |file|
      modifies this
      ensures Underway(file) && old(processed) <= processed && old(readPos) <= readPos && old(offset) <= offset
      ensures old(uncounted) > 0 ==> Valid(file) && readPos == old(readPos + uncounted) && processed == old(processed)
      ensures old(uncounted) == 0 ==> readPos == old(readPos)
      ensures old(uncounted) == 0 ==> offset >= visible || |processed| == |old(processed)| + 1
    {
      if uncounted > 0 {
        Count(file);
      } else {
        var _ := Read(file, if visible < offset then offset else visible);
      }
    }

    /** Follow goes on for any number of half turns; `sizes` are the sizes it sees the file to have. */
    method GoOn(file: Text, sizes: seq<nat>)
      requires Underway(file) && forall i :: 0 <= i < |sizes| ==> sizes[i] <= |file|
      modifies this
      ensures Underway(file) && old(processed) <= processed && old(readPos) <= readPos && old(offset) <= offset
      ensures sizes != [] && old(uncounted) > 0 ==> readPos >= old(readPos + uncounted)
      ensures sizes != [] && old(uncounted) == 0 ==> offset >= sizes[0] || |processed| > |old(processed)|
    {
      var i := 0;
      while i < |sizes|
        invariant 0 <= i <= |sizes| && Underway(file)
        invariant old(processed) <= processed && old(readPos) <= readPos && old(offset) <= offset
        invariant i == 0 ==> uncounted == old(uncounted) && readPos == old(readPos)
        invariant i > 0 && old(uncounted) > 0 ==> readPos >= old(readPos + uncounted)
        invariant i > 0 && old(uncounted) == 0 ==> offset >= sizes[0] || |processed| > |old(processed)|
      {
        HalfTurn(file, sizes[i]);
        i := i + 1;
      }
    }

    /**
     CaughtUpTo: looks at readPos until it has reached the target or time is up, while Follow reads on; `turns[k]`
     is what Follow does between two looks, which may stop at any moment. Caught up means every line that ends at or
     before the target has been processed.
     */
    method CaughtUpTo(file: Text, target: nat, turns: seq<seq<nat>>) returns (ok: bool)
      requires Underway(file) && target <= |file|
      requires forall k, i :: 0 <= k < |turns| && 0 <= i < |turns[k]| ==> turns[k][i] <= |file|
      modifies this
      ensures Underway(file)
      ensures ok ==> forall i :: 0 <= i < target && file[i] == NEWLINE ==> LineDone(processed, i)
      ensures !ok ==> readPos < target
    {
      var looks := 0;
      while readPos < target
        invariant 0 <= looks <= |turns| && Underway(file)
        decreases |turns| - looks
      {
        if looks == |turns| {
          return false;
        }
        GoOn(file, turns[looks]);
        looks := looks + 1;
      }
      forall i | 0 <= i < target && file[i] == NEWLINE ensures LineDone(processed, i) {
        ghost var k := CaughtUpMeansProcessed(this, file, target, i);
      }
      return true;
    }
  }

  /** The line that ends at position i of the text has been processed, as a chunk or as the end of one. */
  ghost predicate LineDone(processed: seq<Text>, i: nat) {
    exists k: nat :: k < |processed| && IsLine(processed[k]) && |Flat(processed[..k + 1])| == i + 1
  }

  lemma {:induction false} TailIgnored(s: Text, n: nat)
    requires n <= |s| && NoNewline(s[n..])
    ensures Lines(s) == Lines(s[..n])
    decreases |s|
  {
    if n < |s| {
      assert s[|s| - 1] == s[n..][|s| - 1 - n];
      var t := s[..|s| - 1];
      assert t[..n] == s[..n] && t[n..] == s[n..][..|s| - 1 - n];
      TailIgnored(t, n);
    } else {
      assert s[..n] == s;
    }
  }

  /** While no partial reaches the cap, the chunks are exactly the lines of what has been read. */
  lemma ChunksAreLines(f: Follower, file: Text)
    requires f.Valid(file) && forall c :: c in f.processed ==> |c| < f.cap || IsLine(c)
    ensures f.processed == Lines(file[..f.readPos]) == Lines(file[..f.offset])
  {
    LinesUnique(f.processed);
    var s := file[..f.offset];
    assert s[f.readPos..] == f.partial && s[..f.readPos] == file[..f.readPos];
    TailIgnored(s, f.readPos);
  }

  lemma {:induction false} ChunkInText(chunks: seq<Text>, k: nat) returns (at: nat)
    requires k < |chunks|
    ensures at + |chunks[k]| <= |Flat(chunks)| && Flat(chunks)[at..at + |chunks[k]|] == chunks[k]
  {
    var front := chunks[..|chunks| - 1];
    if k < |front| {
      at := ChunkInText(front, k);
    } else {
      at := |Flat(front)|;
    }
  }

  /** A file without a run of cap characters free of newlines is processed line by line, however it is split. */
  lemma ShortLinesAreLines(f: Follower, file: Text)
    requires f.Valid(file)
    requires forall i, j :: 0 <= i <= j <= |file| && NoNewline(file[i..j]) ==> j - i < f.cap
    ensures f.processed == Lines(file[..f.offset])
  {
    forall c | c in f.processed ensures |c| < f.cap || IsLine(c) {
      var k :| 0 <= k < |f.processed| && f.processed[k] == c;
      var at := ChunkInText(f.processed, k);
      assert file[at..at + |c|] == c;
    }
    ChunksAreLines(f, file);
  }

  /**
   A reader that has caught up with a target has processed every line that ends at or before it, whenever
   it looks.
   */
  lemma CaughtUpMeansProcessed(f: Follower, file: Text, target: nat, i: nat) returns (k: nat)
    requires f.Underway(file) && f.readPos >= target && i < target && file[i] == NEWLINE
    ensures k < |f.processed| && IsLine(f.processed[k]) && |Flat(f.processed[..k + 1])| == i + 1
  {
    assert |Flat(f.processed)| == f.readPos + f.uncounted;
    k := NewlineEndsChunk(f.processed, f.cap, i);
  }
}
