/**
 * The event-stream frames the relay writes to the browser: `data: <json>\n\n`,
 * where the JSON is `JSON.stringify` of `{type, content}` or `{type, error}`, and
 * the terminator `data: [DONE]\n\n`. String values are quoted as `JSON.stringify`
 * quotes them.
 */
module Frames {
  import opened Wrappers
  import opened Text
  import opened LineBuffer
  import opened Upstream

  /** One frame: a content or thinking update, an error report, or the terminator. */
  datatype Frame = ContentFrame(text: string) | ThinkingFrame(text: string) | ErrorFrame(message: string) | DoneFrame

  /** Lower-case hexadecimal digit. */
  function HexDigit(n: nat): (c: char)
    requires n < 16
    ensures IsDigit(c, 16) && DigitValue(c) == n
  {
    if n < 10 then '0' + n as char else 'a' + (n - 10) as char
  }

  /**
   * How `JSON.stringify` writes one character inside a string literal: the quote,
   * the backslash and the control characters are escaped, everything else is kept.
   */
  function EscapeChar(c: char): (e: string)
    ensures 1 <= |e| && NoNewline(e)
  {
    if c == '"' then "\\\""
    else if c == '\\' then "\\\\"
    else if c == '\U{8}' then "\\b"
    else if c == '\U{C}' then "\\f"
    else if c == '\n' then "\\n"
    else if c == '\r' then "\\r"
    else if c == '\t' then "\\t"
    else if c < ' ' then "\\u00" + [HexDigit(c as int / 16), HexDigit(c as int % 16)]
    else [c]
  }

  /** The body of a JSON string literal for `s`. */
  function Escape(s: string): (e: string)
    ensures NoNewline(e)
  {
    if s == [] then "" else EscapeChar(s[0]) + Escape(s[1..])
  }

  /** `JSON.stringify(s)` for a string. */
  function Quote(s: string): string {
    "\"" + Escape(s) + "\""
  }

  const ContentHead: string := "{\"type\":\"content\",\"content\":"
  const ThinkingHead: string := "{\"type\":\"thinking\",\"content\":"
  const ErrorHead: string := "{\"type\":\"error\",\"error\":"

  /** The text after `data: ` of a frame. */
  function Json(f: Frame): (j: string)
    ensures NoNewline(j)
    ensures f != DoneFrame ==> |j| >= 2 && j[0] == '{' && j[|j| - 1] == '}'
  {
    match f
    case ContentFrame(text) => Object(ContentHead, text)
    case ThinkingFrame(text) => Object(ThinkingHead, text)
    case ErrorFrame(message) => Object(ErrorHead, message)
    case DoneFrame => "[DONE]"
  }

  /** An object whose last field, after `head`, is the quoted `value`. */
  function Object(head: string, value: string): (j: string)
    requires head != [] && NoNewline(head)
    ensures NoNewline(j) && |j| >= 2 && j[0] == head[0] && j[|j| - 1] == '}'
  {
    var j := head + Quote(value) + "}";
    NoNewlineAppend(head, Quote(value), "}");
    j
  }

  /** The `data:` line of a frame. */
  function EventLine(f: Frame): string {
    DataPrefix + Json(f)
  }

  /** What `res.write` sends for a frame: its line and an empty line. */
  function Wire(f: Frame): (w: string)
    ensures Split(w) == [EventLine(f), "", ""]
  {
    SplitEvent(EventLine(f));
    EventLine(f) + "\n\n"
  }

  /** Regrouping the pieces of a field line. */
  lemma Regroup(p: string, h: string, q: string, e: string, c: string)
    ensures p + (h + (q + e + q) + c) == (p + h + q) + e + (q + c)
  {
  }

  /** The line of a frame with a quoted value: the field head, the escaped value, the closing. */
  lemma FieldLine(head: string, value: string)
    ensures DataPrefix + (head + Quote(value) + "}") == (DataPrefix + head + "\"") + Escape(value) + Closing
  {
    Regroup(DataPrefix, head, "\"", Escape(value), "}");
    assert "\"" + "}" == Closing;
  }

  lemma NoNewlineAppend(a: string, b: string, c: string)
    requires NoNewline(a) && NoNewline(b) && NoNewline(c)
    ensures NoNewline(a + b + c)
  {
  }

  /** A frame's line holds no newline: the quoted values are escaped. */
  lemma EventLineNoNewline(f: Frame)
    ensures NoNewline(EventLine(f))
  {
    match f
    case ContentFrame(t) =>
      FieldLine(ContentHead, t);
      NoNewlineAppend(ContentField, Escape(t), Closing);
    case ThinkingFrame(t) =>
      FieldLine(ThinkingHead, t);
      NoNewlineAppend(ThinkingField, Escape(t), Closing);
    case ErrorFrame(m) =>
      FieldLine(ErrorHead, m);
      NoNewlineAppend(ErrorField, Escape(m), Closing);
    case DoneFrame =>
  }

  /** A newline-free line followed by an empty line splits into the line and two empty pieces. */
  lemma SplitEvent(line: string)
    requires NoNewline(line)
    ensures Split(line + "\n\n") == [line, "", ""]
  {
    assert ["", ""][1..] == [""] && [line, "", ""][1..] == ["", ""];
    assert Join(["", ""]) == "\n";
    assert Join([line, "", ""]) == line + "\n\n";
    SplitJoin([line, "", ""]);
  }

  /**
   * Every frame is exactly one event of the stream: a newline splitter sees its
   * `data: ` line and then an empty line, and only the terminator's line is the
   * `[DONE]` marker the decoders skip.
   */
  lemma FrameIsOneEvent(f: Frame)
    ensures Split(Wire(f)) == [EventLine(f), "", ""]
    ensures DataPrefix <= EventLine(f)
    ensures EventLine(f) == DoneMarker <==> f == DoneFrame
  {
    EventLineNoNewline(f);
    SplitEvent(EventLine(f));
    if f != DoneFrame {
      assert |EventLine(f)| > |DoneMarker|;
    }
  }

  /** The character a two-character escape `\e` stands for. */
  function ShortEscape(e: char): Option<char> {
    if e == '"' then Some('"')
    else if e == '\\' then Some('\\')
    else if e == '/' then Some('/')
    else if e == 'b' then Some('\U{8}')
    else if e == 'f' then Some('\U{C}')
    else if e == 'n' then Some('\n')
    else if e == 'r' then Some('\r')
    else if e == 't' then Some('\t')
    else None
  }

  /** The value of four hexadecimal digits. */
  function HexQuad(h: string): (v: nat)
    requires |h| == 4 && AllDigits(h, 16)
    ensures v < 0x1_0000
  {
    ((DigitValue(h[0]) * 16 + DigitValue(h[1])) * 16 + DigitValue(h[2])) * 16 + DigitValue(h[3])
  }

  function Cons(c: char, rest: Option<string>): Option<string> {
    if rest.None? then None else Some([c] + rest.value)
  }

  /**
   * Reading the body of a JSON string literal: escapes are decoded; an unescaped
   * quote, a control character or a bad escape make it invalid. `\u` escapes
   * naming a lone surrogate are refused.
   */
  function Unescape(t: string): Option<string>
    decreases |t|
  {
    if t == [] then Some("")
    else if t[0] == '\\' then
      if |t| >= 2 && ShortEscape(t[1]).Some? then Cons(ShortEscape(t[1]).value, Unescape(t[2..]))
      else if |t| >= 6 && t[1] == 'u' && AllDigits(t[2..6], 16) then
        var v := HexQuad(t[2..6]);
        if 0xD800 <= v < 0xE000 then None else Cons(v as char, Unescape(t[6..]))
      else None
    else if t[0] == '"' || t[0] < ' ' then None
    else Cons(t[0], Unescape(t[1..]))
  }

  /** Reading one escaped character back. */
  lemma UnescapeChar(c: char, rest: string)
    ensures Unescape(EscapeChar(c) + rest) == Cons(c, Unescape(rest))
  {
    var t := EscapeChar(c) + rest;
    if c == '"' || c == '\\' || c == '\U{8}' || c == '\U{C}' || c == '\n' || c == '\r' || c == '\t' {
      assert t[2..] == rest;
    } else if c < ' ' {
      var h := t[2..6];
      assert h == ['0', '0', HexDigit(c as int / 16), HexDigit(c as int % 16)];
      assert HexQuad(h) == c as int;
      assert t[6..] == rest;
    } else {
      assert t[1..] == rest;
    }
  }

  /** Reading a quoted string back gives the string: `JSON.parse(JSON.stringify(s)) == s`. */
  lemma {:induction false} UnescapeEscape(s: string)
    ensures Unescape(Escape(s)) == Some(s)
  {
    if s != [] {
      UnescapeEscape(s[1..]);
      UnescapeChar(s[0], Escape(s[1..]));
      assert [s[0]] + s[1..] == s;
    }
  }

  const Closing: string := "\"}"

  /** The text between a known head and the closing quote and brace, read back. */
  function Field(line: string, head: string): Option<string> {
    if |line| >= |head| + |Closing| && head <= line && line[|line| - |Closing|..] == Closing
    then Unescape(line[|head|..|line| - |Closing|])
    else None
  }

  /** What a browser reading the relay's stream makes of one `data:` line. */
  function DecodeFrame(line: string): Option<Frame> {
    if line == DoneMarker then Some(DoneFrame)
    else if Field(line, ContentField).Some? then Some(ContentFrame(Field(line, ContentField).value))
    else if Field(line, ThinkingField).Some? then Some(ThinkingFrame(Field(line, ThinkingField).value))
    else if Field(line, ErrorField).Some? then Some(ErrorFrame(Field(line, ErrorField).value))
    else None
  }

  /** A field written after `head` is read back from the line. */
  lemma FieldOf(head: string, s: string)
    ensures Field(head + Escape(s) + Closing, head) == Some(s)
  {
    var line := head + Escape(s) + Closing;
    assert line[|head|..|line| - |Closing|] == Escape(s);
    assert line[|line| - |Closing|..] == Closing;
    assert head <= line;
    UnescapeEscape(s);
  }

  const ContentField: string := DataPrefix + ContentHead + "\""
  const ThinkingField: string := DataPrefix + ThinkingHead + "\""
  const ErrorField: string := DataPrefix + ErrorHead + "\""

  /** A line that does not start with `head` has no field after it. */
  lemma NoField(line: string, head: string, k: nat)
    requires k < |head| && k < |line| && line[k] != head[k]
    ensures Field(line, head) == None
  {
  }

  /** Every frame the relay writes decodes back to itself. */
  lemma DecodeEventLine(f: Frame)
    ensures DecodeFrame(EventLine(f)) == Some(f)
  {
    match f
    case DoneFrame =>
    case ContentFrame(t) => DecodeContent(t);
    case ThinkingFrame(t) => DecodeThinking(t);
    case ErrorFrame(m) => DecodeError(m);
  }

  lemma DecodeContent(t: string)
    ensures DecodeFrame(EventLine(ContentFrame(t))) == Some(ContentFrame(t))
  {
    var line := EventLine(ContentFrame(t));
    FieldLine(ContentHead, t);
    FieldOf(ContentField, t);
  }

  lemma DecodeThinking(t: string)
    ensures DecodeFrame(EventLine(ThinkingFrame(t))) == Some(ThinkingFrame(t))
  {
    var line := EventLine(ThinkingFrame(t));
    FieldLine(ThinkingHead, t);
    NoField(line, ContentField, 15);
    FieldOf(ThinkingField, t);
  }

  lemma DecodeError(m: string)
    ensures DecodeFrame(EventLine(ErrorFrame(m))) == Some(ErrorFrame(m))
  {
    var line := EventLine(ErrorFrame(m));
    FieldLine(ErrorHead, m);
    NoField(line, ContentField, 15);
    NoField(line, ThinkingField, 15);
    FieldOf(ErrorField, m);
  }
}
