/**
 * The line buffer both streaming decoders keep: every decoded chunk is appended to
 * `buffer`, the buffer is split on `\n`, every piece but the last is a complete line
 * to process now, and the last piece (possibly empty) is held back for the next chunk.
 */
module LineBuffer {

  predicate NoNewline(s: string) {
    '\n' !in s
  }

  predicate AllNoNewline(lines: seq<string>) {
    forall i :: 0 <= i < |lines| ==> NoNewline(lines[i])
  }

  /** `parts.join('\n')`. */
  function Join(parts: seq<string>): string {
    if |parts| == 0 then ""
    else if |parts| == 1 then parts[0]
    else parts[0] + "\n" + Join(parts[1..])
  }

  /** Each line followed by its `\n` terminator, in order. */
  function Terminated(lines: seq<string>): string {
    if lines == [] then "" else lines[0] + "\n" + Terminated(lines[1..])
  }

  /** `s.split('\n')`: never empty, its pieces hold no newline and join back to `s`. */
  function Split(s: string): (parts: seq<string>)
    ensures |parts| >= 1 && AllNoNewline(parts)
    ensures Join(parts) == s
  {
    if s == [] then [""]
    else
      var rest := Split(s[1..]);
      if s[0] == '\n' then
        assert s == "\n" + s[1..];
        [""] + rest
      else
        var parts := [[s[0]] + rest[0]] + rest[1..];
        assert |rest| > 1 ==> Join(parts) == [s[0]] + rest[0] + "\n" + Join(rest[1..]);
        assert s == [s[0]] + s[1..];
        parts
  }

  /** The lines of `s` that a newline terminates: all pieces of the split but the last. */
  function CompleteLines(s: string): seq<string> {
    Split(s)[..|Split(s)| - 1]
  }

  /** The text after the last newline of `s`: the piece held back in the buffer. */
  function Rest(s: string): string {
    Split(s)[|Split(s)| - 1]
  }

  /** Joining a list of lines after some terminated lines. */
  lemma {:induction false} JoinAppend(a: seq<string>, b: seq<string>)
    requires |b| >= 1
    ensures Join(a + b) == Terminated(a) + Join(b)
  {
    if a != [] {
      JoinAppend(a[1..], b);
      assert (a + b)[0] == a[0] && (a + b)[1..] == a[1..] + b;
      calc {
        Join(a + b);
        a[0] + "\n" + Join(a[1..] + b);
        a[0] + "\n" + (Terminated(a[1..]) + Join(b));
        (a[0] + "\n" + Terminated(a[1..])) + Join(b);
      }
    } else {
      assert a + b == b;
    }
  }

  /** Text without a newline splits into itself alone. */
  lemma {:induction false} SplitNoNewline(x: string)
    requires NoNewline(x)
    ensures Split(x) == [x]
  {
    if x != [] {
      SplitNoNewline(x[1..]);
    }
  }

  /** Splitting a newline-free line, a newline and more text. */
  lemma {:induction false} SplitCons(x: string, y: string)
    requires NoNewline(x)
    ensures Split(x + "\n" + y) == [x] + Split(y)
  {
    var s := x + "\n" + y;
    if x == [] {
      assert s[0] == '\n' && s[1..] == y;
    } else {
      var rest := Split(s[1..]);
      assert s[0] == x[0] && s[1..] == x[1..] + "\n" + y;
      SplitCons(x[1..], y);
      assert rest == [x[1..]] + Split(y);
      assert Split(s) == [[x[0]] + rest[0]] + rest[1..];
      assert [x[0]] + x[1..] == x;
    }
  }

  /** Split undoes Join for newline-free pieces: the split is the unique such decomposition. */
  lemma {:induction false} SplitJoin(parts: seq<string>)
    requires |parts| >= 1 && AllNoNewline(parts)
    ensures Split(Join(parts)) == parts
  {
    if |parts| == 1 {
      SplitNoNewline(parts[0]);
    } else {
      SplitJoin(parts[1..]);
      SplitCons(parts[0], Join(parts[1..]));
    }
  }

  /** A text is its complete lines, each terminated, followed by the held-back rest. */
  lemma Reassemble(s: string)
    ensures NoNewline(Rest(s)) && AllNoNewline(CompleteLines(s))
    ensures Terminated(CompleteLines(s)) + Rest(s) == s
  {
    var p := Split(s);
    var lines, rest := p[..|p| - 1], p[|p| - 1];
    assert p == lines + [rest];
    JoinAppend(lines, [rest]);
    assert Join(p) == s;
  }

  /**
   * Splitting `x + y` gives the complete lines of `x`, then the split of the
   * held-back rest of `x` continued by `y`.
   */
  lemma SplitAppend(x: string, y: string)
    ensures Split(x + y) == CompleteLines(x) + Split(Rest(x) + y)
  {
    var lines, rest := CompleteLines(x), Rest(x);
    var p := Split(rest + y);
    Reassemble(x);
    JoinAppend(lines, p);
    assert Join(lines + p) == x + y by {
      assert Join(p) == rest + y;
      assert Terminated(lines) + (rest + y) == (Terminated(lines) + rest) + y;
    }
    assert AllNoNewline(lines + p) by {
      forall i | 0 <= i < |lines + p| ensures NoNewline((lines + p)[i]) {
        if i < |lines| { assert (lines + p)[i] == lines[i]; }
        else { assert (lines + p)[i] == p[i - |lines|]; }
      }
    }
    SplitJoin(lines + p);
  }

  /**
   * One decoded chunk arriving: the lines it completes and the new buffer. The
   * complete lines, each with its `\n`, followed by the new buffer are exactly the
   * old buffer followed by the chunk, and the new buffer holds no newline.
   */
  function Feed(buffer: string, chunk: string): (r: (seq<string>, string))
    ensures AllNoNewline(r.0) && NoNewline(r.1)
    ensures Terminated(r.0) + r.1 == buffer + chunk
  {
    Reassemble(buffer + chunk);
    (CompleteLines(buffer + chunk), Rest(buffer + chunk))
  }

  /** Concatenation of the chunks, in arrival order. */
  function Concat(chunks: seq<string>): string {
    if chunks == [] then "" else Concat(chunks[..|chunks| - 1]) + chunks[|chunks| - 1]
  }

  /** Feeding the chunks one after the other into an empty buffer: lines processed and final buffer. */
  function FeedAll(chunks: seq<string>): (seq<string>, string) {
    if chunks == [] then ([], "")
    else
      var (lines, buffer) := FeedAll(chunks[..|chunks| - 1]);
      var (more, buffer') := Feed(buffer, chunks[|chunks| - 1]);
      (lines + more, buffer')
  }

  /** Dropping the last element of a concatenation whose right part is not empty. */
  lemma DropLast(a: seq<string>, q: seq<string>)
    requires |q| >= 1
    ensures (a + q)[..|a + q| - 1] == a + q[..|q| - 1]
    ensures (a + q)[|a + q| - 1] == q[|q| - 1]
  {
  }

  /** Feeding one more chunk to the buffer left by `text` completes the lines of `text + chunk`. */
  lemma FeedStep(text: string, chunk: string)
    ensures CompleteLines(text) + Feed(Rest(text), chunk).0 == CompleteLines(text + chunk)
    ensures Feed(Rest(text), chunk).1 == Rest(text + chunk)
  {
    SplitAppend(text, chunk);
    DropLast(CompleteLines(text), Split(Rest(text) + chunk));
  }

  /**
   * Whatever the chunk boundaries, the lines processed are the complete lines of
   * the whole text and the buffer is the text after its last newline.
   */
  lemma {:induction false} FeedAllSplits(chunks: seq<string>)
    ensures FeedAll(chunks) == (CompleteLines(Concat(chunks)), Rest(Concat(chunks)))
  {
    if chunks != [] {
      var init, last := chunks[..|chunks| - 1], chunks[|chunks| - 1];
      var text := Concat(init);
      assert Concat(chunks) == text + last;
      FeedAllSplits(init);
      FeedStep(text, last);
      var step := Feed(Rest(text), last);
      assert FeedAll(chunks) == (CompleteLines(text) + step.0, step.1);
    }
  }

  /** Two ways of cutting the same text into chunks yield the same lines and the same buffer. */
  lemma ChunkingInvariant(chunks: seq<string>, chunks': seq<string>)
    requires Concat(chunks) == Concat(chunks')
    ensures FeedAll(chunks) == FeedAll(chunks')
  {
    FeedAllSplits(chunks);
    FeedAllSplits(chunks');
  }

  /**
   * A last chunk that carries no newline completes no line: the partial line it leaves in
   * the buffer when the stream ends is never processed.
   */
  lemma TrailingPartialNotProcessed(chunks: seq<string>, tail: string)
    requires NoNewline(tail)
    ensures FeedAll(chunks + [tail]).0 == FeedAll(chunks).0
    ensures FeedAll(chunks + [tail]).1 == FeedAll(chunks).1 + tail
  {
    var buffer := FeedAll(chunks).1;
    assert (chunks + [tail])[..|chunks|] == chunks;
    if chunks == [] {
      assert buffer == "";
    } else {
      assert NoNewline(buffer) by { FeedAllSplits(chunks); Reassemble(Concat(chunks)); }
    }
    SplitNoNewline(buffer + tail);
  }
}
