/**
 * Line framing of the stdio transport: text arrives in arbitrary chunks, and is
 * cut at newlines; what follows the last newline waits in the buffer.
 *
 * `Lines` and `Tail` read a text one character at a time, which is what framing
 * means; the client's loop over `indexOf` is proved against them.
 */
module JsonRpcFraming {

  predicate Unbroken(s: string) {
    forall k :: 0 <= k < |s| ==> s[k] != '\n'
  }

  /** What follows the last newline. */
  function Tail(s: string): string {
    if s == "" then ""
    else if s[|s| - 1] == '\n' then ""
    else Tail(s[..|s| - 1]) + [s[|s| - 1]]
  }

  /** The lines that a newline has ended. */
  function Lines(s: string): seq<string> {
    if s == "" then []
    else if s[|s| - 1] == '\n' then Lines(s[..|s| - 1]) + [Tail(s[..|s| - 1])]
    else Lines(s[..|s| - 1])
  }

  /** The lines, each with its newline put back. */
  function Unlines(lines: seq<string>): string {
    if lines == [] then "" else Unlines(lines[..|lines| - 1]) + lines[|lines| - 1] + "\n"
  }

  lemma ReadChar(s: string, c: char)
    ensures Tail(s + [c]) == (if c == '\n' then "" else Tail(s) + [c])
    ensures Lines(s + [c]) == (if c == '\n' then Lines(s) + [Tail(s)] else Lines(s))
  {
    assert (s + [c])[..|s + [c]| - 1] == s;
  }

  lemma UnlinesSnoc(lines: seq<string>, line: string)
    ensures Unlines(lines + [line]) == Unlines(lines) + line + "\n"
  {
    assert (lines + [line])[..|lines + [line]| - 1] == lines;
  }

  lemma {:induction false} UnbrokenStays(s: string)
    requires Unbroken(s)
    ensures Lines(s) == [] && Tail(s) == s
  {
    if s != "" {
      UnbrokenStays(s[..|s| - 1]);
      assert s == s[..|s| - 1] + [s[|s| - 1]];
    }
  }

  /** No line holds a newline, and neither does what waits in the buffer. */
  lemma {:induction false} FramedAtNewlines(s: string)
    ensures Unbroken(Tail(s)) && forall k :: 0 <= k < |Lines(s)| ==> Unbroken(Lines(s)[k])
  {
    if s != "" {
      FramedAtNewlines(s[..|s| - 1]);
    }
  }

  /** Nothing is lost in framing: the consumed lines and the buffer give back the text. */
  lemma {:induction false} FramingReconstructs(s: string)
    ensures Unlines(Lines(s)) + Tail(s) == s
  {
    if s != "" {
      var init, c := s[..|s| - 1], s[|s| - 1];
      assert s == init + [c];
      FramingReconstructs(init);
      ReconstructChar(init, c);
    }
  }

  lemma ReconstructChar(s: string, c: char)
    requires Unlines(Lines(s)) + Tail(s) == s
    ensures Unlines(Lines(s + [c])) + Tail(s + [c]) == s + [c]
  {
    hide *;
    ReadChar(s, c);
    if c == '\n' {
      UnlinesSnoc(Lines(s), Tail(s));
      assert s + "\n" + "" == s + ['\n'];
    } else {
      assert Unlines(Lines(s)) + (Tail(s) + [c]) == (Unlines(Lines(s)) + Tail(s)) + [c];
    }
  }

  /** Feeding a text in two pieces consumes the lines of the whole, in order, and
      leaves the tail of the whole. */
  lemma {:induction false} SplitFeedIsWholeFeed(a: string, b: string)
    ensures Lines(a + b) == Lines(a) + Lines(Tail(a) + b)
    ensures Tail(a + b) == Tail(Tail(a) + b)
  {
    hide Lines, Tail;
    if b == "" {
      FramedAtNewlines(a);
      UnbrokenStays(Tail(a));
      assert a + b == a && Tail(a) + b == Tail(a);
      assert Lines(a) + [] == Lines(a);
    } else {
      var init, c := b[..|b| - 1], b[|b| - 1];
      SplitFeedIsWholeFeed(a, init);
      assert a + b == (a + init) + [c] && Tail(a) + b == (Tail(a) + init) + [c];
      SplitFeedChar(a, init, c);
    }
  }

  lemma SplitFeedChar(a: string, b: string, c: char)
    requires Lines(a + b) == Lines(a) + Lines(Tail(a) + b)
    requires Tail(a + b) == Tail(Tail(a) + b)
    ensures Lines(a + b + [c]) == Lines(a) + Lines(Tail(a) + b + [c])
    ensures Tail(a + b + [c]) == Tail(Tail(a) + b + [c])
  {
    hide *;
    ReadChar(a + b, c);
    ReadChar(Tail(a) + b, c);
    var x, y, z := Lines(a), Lines(Tail(a) + b), [Tail(a + b)];
    assert (x + y) + z == x + (y + z);
  }

  lemma LineRead(line: string)
    requires Unbroken(line)
    ensures Lines(line + "\n") == [line] && Tail(line + "\n") == ""
  {
    hide *;
    UnbrokenStays(line);
    ReadChar(line, '\n');
  }

  /** There is no other way to cut a text at its newlines. */
  lemma {:induction false} FramingIsUnique(lines: seq<string>, tail: string)
    requires (forall k :: 0 <= k < |lines| ==> Unbroken(lines[k])) && Unbroken(tail)
    ensures Lines(Unlines(lines) + tail) == lines && Tail(Unlines(lines) + tail) == tail
    decreases |lines|
  {
    hide Lines, Tail;
    if lines == [] {
      UnbrokenStays(tail);
      assert Unlines(lines) + tail == tail;
    } else {
      var init, line := lines[..|lines| - 1], lines[|lines| - 1];
      FramingIsUnique(init, "");
      assert lines == init + [line];
      UniqueLine(init, line, tail);
    }
  }

  lemma UniqueLine(lines: seq<string>, line: string, tail: string)
    requires Lines(Unlines(lines) + "") == lines && Tail(Unlines(lines) + "") == ""
    requires Unbroken(line) && Unbroken(tail)
    ensures Lines(Unlines(lines + [line]) + tail) == lines + [line]
    ensures Tail(Unlines(lines + [line]) + tail) == tail
  {
    hide *;
    var u := Unlines(lines);
    assert u + "" == u;
    UnlinesSnoc(lines, line);
    assert u + line + "\n" == u + (line + "\n");
    SplitFeedIsWholeFeed(u, line + "\n");
    assert "" + (line + "\n") == line + "\n";
    LineRead(line);
    SplitFeedIsWholeFeed(u + (line + "\n"), tail);
    assert "" + tail == tail;
    UnbrokenStays(tail);
    assert (lines + [line]) + [] == lines + [line];
  }

  // ---------- the newline search of the client ----------

  /** `s.indexOf('\n')`, or the length of `s` when there is none. */
  function IndexOfNewline(s: string): (i: nat)
    ensures i <= |s| && (forall k :: 0 <= k < i ==> s[k] != '\n') && (i < |s| ==> s[i] == '\n')
  {
    if s == "" || s[0] == '\n' then 0 else 1 + IndexOfNewline(s[1..])
  }

  /** Cutting at the first newline takes the first line off the text. */
  lemma FirstLineTaken(s: string, i: nat)
    requires i < |s| && s[i] == '\n' && forall k :: 0 <= k < i ==> s[k] != '\n'
    ensures Lines(s) == [s[..i]] + Lines(s[i + 1..]) && Tail(s) == Tail(s[i + 1..])
  {
    hide Lines, Tail;
    LineRead(s[..i]);
    SplitFeedIsWholeFeed(s[..i] + "\n", s[i + 1..]);
    CutAt(s, i);
    assert "" + s[i + 1..] == s[i + 1..];
  }

  lemma CutAt(s: string, i: nat)
    requires i < |s| && s[i] == '\n'
    ensures s[..i] + "\n" + s[i + 1..] == s
  {
  }

  // ---------- any number of chunks ----------

  function Joined(chunks: seq<string>): string {
    if chunks == [] then "" else Joined(chunks[..|chunks| - 1]) + chunks[|chunks| - 1]
  }

  /** The buffer after feeding the chunks one by one. */
  function BufferAfter(chunks: seq<string>): string {
    if chunks == [] then "" else Tail(BufferAfter(chunks[..|chunks| - 1]) + chunks[|chunks| - 1])
  }

  /** The lines consumed by feeding the chunks one by one. */
  function ConsumedBy(chunks: seq<string>): seq<string> {
    if chunks == [] then []
    else
      var before := chunks[..|chunks| - 1];
      ConsumedBy(before) + Lines(BufferAfter(before) + chunks[|chunks| - 1])
  }

  /** Framing does not depend on where the text was cut into chunks. */
  lemma {:induction false} ChunkingDoesNotMatter(chunks: seq<string>)
    ensures ConsumedBy(chunks) == Lines(Joined(chunks)) && BufferAfter(chunks) == Tail(Joined(chunks))
  {
    if chunks != [] {
      hide Lines, Tail;
      var before, last := chunks[..|chunks| - 1], chunks[|chunks| - 1];
      ChunkingDoesNotMatter(before);
      SplitFeedIsWholeFeed(Joined(before), last);
    }
  }
}
