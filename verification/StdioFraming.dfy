/** Newline framing of src/integration/mcp-stdio.ts: a growing buffer is cut into complete lines and
  * an unfinished tail.
  */
module StdioFraming {
  import opened Text

  datatype Framed = Framed(lines: seq<string>, rest: string)

  /** `buffer.split("\n")`. */
  function Split(s: string): (parts: seq<string>)
    ensures |parts| >= 1
  {
    if s == "" then [""] else Prepend(s[0], Split(s[1..]))
  }

  /** A newline begins a part of its own; any other character extends the first part. */
  function Prepend(c: char, parts: seq<string>): seq<string>
    requires |parts| >= 1
  {
    if c == '\n' then [""] + parts else [[c] + parts[0]] + parts[1..]
  }

  function Join(parts: seq<string>): string
    requires |parts| >= 1
  {
    if |parts| == 1 then parts[0] else parts[0] + "\n" + Join(parts[1..])
  }

  /** A trimmed line, unless it trims to nothing. */
  function CleanLine(part: string): seq<string> {
    var line := Trim(part);
    if |line| > 0 then [line] else []
  }

  /** Trimmed lines, without those that trim to nothing. */
  function Clean(parts: seq<string>): seq<string> {
    if parts == [] then [] else CleanLine(parts[0]) + Clean(parts[1..])
  }

  /** All parts but the last are lines; the last is the rest. */
  function FrameParts(parts: seq<string>): Framed
    requires |parts| >= 1
  {
    Framed(Clean(parts[..|parts| - 1]), parts[|parts| - 1])
  }

  function SplitFramedLines(buffer: string): Framed {
    FrameParts(Split(buffer))
  }

  function Concat(chunks: seq<string>): string {
    if chunks == [] then "" else Concat(chunks[..|chunks| - 1]) + chunks[|chunks| - 1]
  }

  /** What the buffered handler has extracted and kept after a sequence of chunks. */
  function Feed(chunks: seq<string>): Framed {
    if chunks == [] then Framed([], "")
    else
      var before := Feed(chunks[..|chunks| - 1]);
      var next := SplitFramedLines(before.rest + chunks[|chunks| - 1]);
      Framed(before.lines + next.lines, next.rest)
  }

  /** `Split` is the inverse of joining with newlines: its parts hold no newline and join back. */
  lemma {:induction false} SplitThenJoin(s: string)
    ensures Join(Split(s)) == s
    ensures forall i :: 0 <= i < |Split(s)| ==> '\n' !in Split(s)[i]
  {
    if s != "" {
      var rest := Split(s[1..]);
      SplitThenJoin(s[1..]);
      assert s == [s[0]] + s[1..];
      assert Prepend(s[0], rest)[1..] == if s[0] == '\n' then rest else rest[1..];
    }
  }

  lemma {:induction false} JoinThenSplit(parts: seq<string>)
    requires |parts| >= 1 && forall i :: 0 <= i < |parts| ==> '\n' !in parts[i]
    ensures Split(Join(parts)) == parts
  {
    if |parts| == 1 {
      SplitWithoutNewline(parts[0]);
    } else {
      JoinThenSplit(parts[1..]);
      SplitAppend(parts[0], "\n" + Join(parts[1..]));
      SplitWithoutNewline(parts[0]);
      SplitLine(parts[0], Join(parts[1..]));
      assert parts[0] + "\n" + Join(parts[1..]) == parts[0] + ("\n" + Join(parts[1..]));
    }
  }

  lemma {:induction false} SplitWithoutNewline(s: string)
    requires '\n' !in s
    ensures Split(s) == [s]
  {
    if s != "" {
      SplitWithoutNewline(s[1..]);
      assert s == [s[0]] + s[1..];
    }
  }

  lemma {:induction false} SplitLine(line: string, after: string)
    requires '\n' !in line
    ensures Split(line + ("\n" + after)) == [line] + Split(after)
  {
    if line == "" {
      assert line + ("\n" + after) == "\n" + after;
      assert ("\n" + after)[1..] == after;
    } else {
      SplitLine(line[1..], after);
      assert (line + ("\n" + after))[1..] == line[1..] + ("\n" + after);
      assert line == [line[0]] + line[1..];
    }
  }

  lemma SplitFirst(c: char, part: string, b: string)
    requires c != '\n'
    ensures Split([c] + part + b) == Prepend(c, Split(part + b))
  {
    assert ([c] + part + b)[1..] == part + b;
  }

  /** Appending to a buffer only continues its unfinished last line. */
  lemma {:induction false} SplitAppend(a: string, b: string)
    ensures var parts := Split(a);
            Split(a + b) == parts[..|parts| - 1] + Split(parts[|parts| - 1] + b)
  {
    if a == "" {
      assert a + b == b;
    } else {
      var parts := Split(a[1..]);
      SplitAppend(a[1..], b);
      assert (a + b)[1..] == a[1..] + b && (a + b)[0] == a[0];
      if |parts| == 1 && a[0] != '\n' {
        SplitFirst(a[0], parts[0], b);
      } else {
        PrependToFirst(a[0], parts, Split(parts[|parts| - 1] + b));
      }
    }
  }

  lemma PrependToFirst(c: char, parts: seq<string>, more: seq<string>)
    requires |parts| >= 1 && |more| >= 1 && (|parts| > 1 || c == '\n')
    ensures var whole := Prepend(c, parts);
            Prepend(c, parts[..|parts| - 1] + more) == whole[..|whole| - 1] + more &&
            whole[|whole| - 1] == parts[|parts| - 1]
  {
    if c != '\n' {
      assert (parts[..|parts| - 1] + more)[1..] == parts[..|parts| - 1][1..] + more;
    }
  }

  lemma {:induction false} CleanAppend(left: seq<string>, right: seq<string>)
    ensures Clean(left + right) == Clean(left) + Clean(right)
  {
    if left == [] {
      assert left + right == right;
    } else {
      CleanAppend(left[1..], right);
      assert (left + right)[1..] == left[1..] + right && (left + right)[0] == left[0];
      Regroup(CleanLine(left[0]), Clean(left[1..]), Clean(right));
    }
  }

  lemma Regroup(a: seq<string>, b: seq<string>, c: seq<string>)
    ensures a + (b + c) == (a + b) + c
  {
  }

  /** Parts that continue a buffer's unfinished last one. */
  lemma FrameContinued(before: seq<string>, next: seq<string>)
    requires |before| >= 1 && |next| >= 1
    ensures FrameParts(before[..|before| - 1] + next) ==
            Framed(FrameParts(before).lines + FrameParts(next).lines, FrameParts(next).rest)
  {
    var whole := before[..|before| - 1] + next;
    assert whole[..|whole| - 1] == before[..|before| - 1] + next[..|next| - 1];
    CleanAppend(before[..|before| - 1], next[..|next| - 1]);
  }

  /** One more chunk adds the lines it completes to those of the text before it. */
  lemma OneMoreChunk(text: string, chunk: string)
    ensures var before := SplitFramedLines(text);
            var next := SplitFramedLines(before.rest + chunk);
            SplitFramedLines(text + chunk) == Framed(before.lines + next.lines, next.rest)
  {
    var before := Split(text);
    SplitAppend(text, chunk);
    FrameContinued(before, Split(before[|before| - 1] + chunk));
  }

  /** However a byte stream is cut into chunks, the handler extracts the lines, and keeps the tail,
    * that one whole chunk would give. */
  lemma {:induction false} FramingIsChunkIndependent(chunks: seq<string>)
    ensures Feed(chunks) == SplitFramedLines(Concat(chunks))
  {
    if chunks != [] {
      var earlier := chunks[..|chunks| - 1];
      FramingIsChunkIndependent(earlier);
      OneMoreChunk(Concat(earlier), chunks[|chunks| - 1]);
    }
  }
}
