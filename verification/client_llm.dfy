/**
 * The browser-side twin of the relay's upstream call (`createChatCompletion`): the
 * same line buffer and the same line filtering, but only truthy `content`
 * fragments are accumulated, every cumulative text goes to `onUpdate`, and every
 * error, an abort included, is rethrown. Also the start-up decision
 * `checkIncompleteStreaming` over the two values it reads from storage.
 */
module ClientLlm {
  import opened Wrappers
  import opened Text
  import opened LineBuffer
  import opened Upstream
  import opened ServerLlm

  /** The model the browser client asks for. */
  const ClientModel: string := "qwq-32b"

  /** The decoder's accumulator and the texts handed to `onUpdate` so far. */
  datatype Content = Content(full: string, updates: seq<string>)

  const Empty: Content := Content("", [])

  /** The fragment a payload contributes: its `content`, when that is truthy. */
  function Fragment(payload: Option<Payload>): Option<string> {
    match payload
    case Some(Delta(content, _)) => if Truthy(content) then content else None
    case _ => None
  }

  /** One payload: an accepted fragment is appended and the cumulative text emitted. */
  function Accept(st: Content, payload: Option<Payload>): Content {
    match Fragment(payload)
    case None => st
    case Some(fragment) => Content(st.full + fragment, st.updates + [st.full + fragment])
  }

  /** The decoder applied to a sequence of line payloads in order. */
  function Decode(st: Content, payloads: seq<Option<Payload>>): Content {
    if payloads == [] then st
    else Accept(Decode(st, payloads[..|payloads| - 1]), payloads[|payloads| - 1])
  }

  /** The decoder applied to the lines in order. */
  function ContentRun(st: Content, lines: seq<string>, parse: string -> Payload): Content {
    Decode(st, Payloads(lines, parse))
  }

  /** Decoding two runs of payloads one after the other is decoding their concatenation. */
  lemma {:induction false} DecodeAppend(st: Content, a: seq<Option<Payload>>, b: seq<Option<Payload>>)
    ensures Decode(Decode(st, a), b) == Decode(st, a + b)
  {
    if b == [] {
      assert a + b == a;
    } else {
      DecodeAppend(st, a, b[..|b| - 1]);
      assert (a + b)[..|a + b| - 1] == a + b[..|b| - 1];
    }
  }

  /** Decoding two runs of lines one after the other is decoding their concatenation. */
  lemma ContentRunAppend(st: Content, a: seq<string>, b: seq<string>, parse: string -> Payload)
    ensures ContentRun(ContentRun(st, a, parse), b, parse) == ContentRun(st, a + b, parse)
  {
    PayloadsAppend(a, b, parse);
    DecodeAppend(st, Payloads(a, parse), Payloads(b, parse));
  }

  /** The accepted fragments, in order. */
  function Fragments(payloads: seq<Option<Payload>>): seq<string> {
    if payloads == [] then []
    else
      var last := Fragment(payloads[|payloads| - 1]);
      Fragments(payloads[..|payloads| - 1]) + if last.Some? then [last.value] else []
  }

  /** The texts concatenated in order. */
  function Flatten(texts: seq<string>): string {
    if texts == [] then "" else Flatten(texts[..|texts| - 1]) + texts[|texts| - 1]
  }

  /**
   * The result is the in-order concatenation of the accepted fragments, one
   * `onUpdate` call is made per accepted fragment, and the k-th call receives the
   * concatenation of the first k fragments.
   */
  lemma {:induction false} DecodeConcatenates(payloads: seq<Option<Payload>>)
    ensures var r := Decode(Empty, payloads);
      && r.full == Flatten(Fragments(payloads))
      && |r.updates| == |Fragments(payloads)|
      && forall k :: 0 <= k < |r.updates| ==> r.updates[k] == Flatten(Fragments(payloads)[..k + 1])
  {
    if payloads != [] {
      var init, p := payloads[..|payloads| - 1], payloads[|payloads| - 1];
      DecodeConcatenates(init);
      var fs := Fragments(init);
      var r0 := Decode(Empty, init);
      var r := Decode(Empty, payloads);
      assert r == Accept(r0, p);
      if Fragment(p).Some? {
        var all := fs + [Fragment(p).value];
        assert Fragments(payloads) == all;
        assert all[..|all|] == all && all[..|all| - 1] == fs;
        assert r.updates == r0.updates + [r.full];
        forall k | 0 <= k < |r.updates| ensures r.updates[k] == Flatten(all[..k + 1]) {
          if k < |fs| {
            assert all[..k + 1] == fs[..k + 1];
          }
        }
      } else {
        assert Fragments(payloads) == fs + [] == fs;
        assert r == r0;
      }
    }
  }

  /**
   * Each text handed to `onUpdate` strictly extends the one before it, and the
   * last of them is the result.
   */
  lemma {:induction false} UpdatesGrow(payloads: seq<Option<Payload>>)
    ensures var r := Decode(Empty, payloads);
      && Extends("", r.updates)
      && (r.updates == [] ==> r.full == "")
      && (r.updates != [] ==> r.updates[|r.updates| - 1] == r.full)
  {
    if payloads != [] {
      var init, p := payloads[..|payloads| - 1], payloads[|payloads| - 1];
      UpdatesGrow(init);
      var r0 := Decode(Empty, init);
      if Fragment(p).Some? {
        ExtendsSnoc("", r0.updates, r0.full + Fragment(p).value);
      }
    }
  }

  /** The payload with its `reasoning_content` removed. */
  function WithoutReasoning(payload: Option<Payload>): Option<Payload> {
    match payload
    case Some(Delta(content, _)) => Some(Delta(content, None))
    case _ => payload
  }

  /** `reasoning_content` never affects what the decoder emits or returns. */
  lemma {:induction false} ReasoningIgnored(st: Content, payloads: seq<Option<Payload>>)
    ensures Decode(st, seq(|payloads|, i requires 0 <= i < |payloads| => WithoutReasoning(payloads[i])))
            == Decode(st, payloads)
  {
    var stripped := seq(|payloads|, i requires 0 <= i < |payloads| => WithoutReasoning(payloads[i]));
    if payloads != [] {
      var init := payloads[..|payloads| - 1];
      ReasoningIgnored(st, init);
      assert stripped[..|stripped| - 1]
             == seq(|init|, i requires 0 <= i < |init| => WithoutReasoning(init[i]));
      assert Fragment(stripped[|stripped| - 1]) == Fragment(payloads[|payloads| - 1]);
    }
  }

  /** The texts as `onUpdate` invocations of the relay's classifier. */
  function AsUpdates(texts: seq<string>): (events: seq<Event>)
    ensures |events| == |texts|
    ensures forall i :: 0 <= i < |texts| ==> events[i] == Update(texts[i])
  {
    seq(|texts|, i requires 0 <= i < |texts| => Update(texts[i]))
  }

  /**
   * On a stream in which no delta carries a truthy `reasoning_content`, the relay's
   * classifier never enters the thinking phase and behaves exactly like this
   * decoder: the same `onUpdate` calls and the same result.
   */
  lemma {:induction false} AgreesWithRelay(payloads: seq<Option<Payload>>, hasThinking: bool)
    requires forall i :: 0 <= i < |payloads| ==> !(payloads[i].Some? && payloads[i].value.Delta? && Truthy(payloads[i].value.reasoning))
    ensures var d := Decode(Empty, payloads);
            Classified(Start, payloads, hasThinking) == Classifier(false, "", d.full, AsUpdates(d.updates))
  {
    if payloads != [] {
      var init := payloads[..|payloads| - 1];
      AgreesWithRelay(init, hasThinking);
      var d0 := Decode(Empty, init);
      var p := payloads[|payloads| - 1];
      if Fragment(p).Some? {
        assert AsUpdates(d0.updates) + [Update(d0.full + Fragment(p).value)]
               == AsUpdates(d0.updates + [d0.full + Fragment(p).value]);
      }
    }
  }

  /**
   * What a call does, as a function of its inputs: the outcome and the texts
   * handed to `onUpdate`. Every failure is rethrown, an abort included.
   */
  function ClientCompletion(parse: string -> Payload, response: Response): (Outcome, seq<string>) {
    match response
    case NoResponse(f) => (Threw(Thrown(f)), [])
    case Answered(status, chunks, cut) =>
      if !Ok(status) then (Threw(HttpError(status)), [])
      else
        var r := ContentRun(Empty, CompleteLines(Concat(chunks)), parse);
        (if cut.None? then Returned(r.full) else Threw(Thrown(cut.value)), r.updates)
  }

  /** Text after the last newline of the stream is never decoded. */
  lemma ClientTrailingPartialLineIgnored(parse: string -> Payload, status: nat, chunks: seq<string>,
                                         tail: string, cut: Option<Failure>)
    requires NoNewline(tail)
    ensures ClientCompletion(parse, Answered(status, chunks + [tail], cut))
            == ClientCompletion(parse, Answered(status, chunks, cut))
  {
    FeedAllSplits(chunks);
    FeedAllSplits(chunks + [tail]);
    TrailingPartialNotProcessed(chunks, tail);
  }

  /** The body of the loop over complete lines: skip what carries nothing, accept truthy content. */
  method ContentLine(line: string, parse: string -> Payload, full: string, updates: seq<string>)
    returns (full': string, updates': seq<string>)
    ensures Content(full', updates') == Accept(Content(full, updates), LinePayload(line, parse))
  {
    full', updates' := full, updates;
    if Trim(line) == "" || Trim(line) == DoneMarker {
      return;
    }
    if DataPrefix <= line {
      var payload := parse(Trim(line[|DataPrefix|..]));
      assert LinePayload(line, parse) == Some(payload);
      if payload.Delta? && Truthy(payload.content) {
        full' := full' + payload.content.value;
        updates' := updates' + [full'];
      }
    }
  }

  /** The loop over the complete lines a chunk yields. */
  method ContentLines(lines: seq<string>, parse: string -> Payload, full: string, updates: seq<string>)
    returns (full': string, updates': seq<string>)
    ensures Content(full', updates') == ContentRun(Content(full, updates), lines, parse)
  {
    full', updates' := full, updates;
    ghost var st := Content(full, updates);
    for j := 0 to |lines|
      invariant Content(full', updates') == ContentRun(st, lines[..j], parse)
    {
      ghost var ps := Payloads(lines[..j], parse);
      assert lines[..j + 1] == lines[..j] + [lines[j]];
      PayloadsAppend(lines[..j], [lines[j]], parse);
      assert Payloads(lines[..j + 1], parse)[..j] == ps;
      full', updates' := ContentLine(lines[j], parse, full', updates');
    }
    assert lines[..|lines|] == lines;
  }

  /**
   * The `while (true)` loop over `reader.read()`, with the same buffer handling as
   * the relay's: the result is the decoding of the complete lines of the whole
   * stream, whatever the chunk boundaries.
   */
  method ReadContent(chunks: seq<string>, parse: string -> Payload)
    returns (full: string, updates: seq<string>)
    ensures Content(full, updates) == ContentRun(Empty, CompleteLines(Concat(chunks)), parse)
  {
    var buffer := "";
    full, updates := "", [];
    var i := 0;
    while i < |chunks|
      invariant 0 <= i <= |chunks|
      invariant buffer == FeedAll(chunks[..i]).1
      invariant Content(full, updates) == ContentRun(Empty, FeedAll(chunks[..i]).0, parse)
    {
      ghost var done := FeedAll(chunks[..i]).0;
      var parts := Split(buffer + chunks[i]);
      var lines := parts[..|parts| - 1];
      buffer := parts[|parts| - 1];
      full, updates := ContentLines(lines, parse, full, updates);
      ContentRunAppend(Empty, done, lines, parse);
      assert chunks[..i + 1][..i] == chunks[..i];
      i := i + 1;
    }
    assert chunks[..i] == chunks;
    FeedAllSplits(chunks);
  }

  /**
   * `createChatCompletion(messages, onUpdate)`: the request always goes out, a
   * non-ok status throws, and any failure is rethrown after the updates already made.
   */
  method CreateChatCompletion(messages: seq<Turn>, parse: string -> Payload, response: Response)
    returns (outcome: Outcome, updates: seq<string>, request: UpstreamRequest)
    ensures (outcome, updates) == ClientCompletion(parse, response)
    ensures request == UpstreamRequest(ClientModel, messages, true)
    ensures response.NoResponse? ==> outcome == Threw(Thrown(response.failure)) && updates == []
    ensures response.Answered? && !Ok(response.status) ==> outcome == Threw(HttpError(response.status)) && updates == []
    ensures response.Answered? && Ok(response.status) && response.cut.Some? ==> outcome == Threw(Thrown(response.cut.value))
  {
    request := UpstreamRequest(ClientModel, messages, true);
    if response.NoResponse? {
      return Threw(Thrown(response.failure)), [], request;
    }
    if !Ok(response.status) {
      return Threw(HttpError(response.status)), [], request;
    }
    var full;
    full, updates := ReadContent(response.chunks, parse);
    if response.cut.Some? {
      return Threw(Thrown(response.cut.value)), updates, request;
    }
    return Returned(full), updates, request;
  }

  /** What `checkIncompleteStreaming` does: throw while logging, or finish, marking an index or not. */
  datatype Check = LogThrows | Checked(marked: Option<int>)

  /** `localStorage.getItem` result as the string the callee sees: `null` converts to "null". */
  function StoredText(item: Option<string>): string {
    if item.None? then "null" else item.value
  }

  /**
   * `checkIncompleteStreaming(completeCallback)` over the stored `isStreaming`,
   * `lastStreamingMessageIndex` and `chat` items. The logging statement parses the
   * stored chat, which throws on text that is not JSON (`isJson` stands for
   * `JSON.parse` succeeding; `null` parses). Otherwise the callback gets the
   * parsed index exactly when the flag is the text `'true'` and the index is a
   * number at least 0.
   */
  function CheckIncompleteStreaming(isStreaming: Option<string>, lastIndex: Option<string>,
                                    chat: Option<string>, isJson: string -> bool): (r: Check)
    ensures r == LogThrows <==> chat.Some? && !isJson(chat.value)
    ensures r.Checked? && r.marked.Some? <==>
              && (chat.None? || isJson(chat.value))
              && isStreaming == Some("true")
              && ParseInt(StoredText(lastIndex)).Some? && ParseInt(StoredText(lastIndex)).value >= 0
    ensures r.Checked? && r.marked.Some? ==> Some(r.marked.value) == ParseInt(StoredText(lastIndex))
  {
    var streaming := isStreaming == Some("true");
    var index := ParseInt(StoredText(lastIndex));
    if chat.Some? && !isJson(chat.value) then LogThrows
    else if streaming && index.Some? && index.value >= 0 then Checked(index)
    else Checked(None)
  }

  /** An index stored as `String(n)` while streaming is handed back to the callback. */
  lemma MarksStoredIndex(n: nat, chat: Option<string>, isJson: string -> bool)
    requires chat.None? || isJson(chat.value)
    ensures CheckIncompleteStreaming(Some("true"), Some(Decimal(n)), chat, isJson) == Checked(Some(n))
  {
    ParseIntDecimal(n);
  }

  /** A missing index parses to NaN, so the callback is never called. */
  lemma MissingIndexNoMark(isStreaming: Option<string>, chat: Option<string>, isJson: string -> bool)
    ensures CheckIncompleteStreaming(isStreaming, None, chat, isJson).Checked? ==>
            CheckIncompleteStreaming(isStreaming, None, chat, isJson).marked == None
  {
    ParseIntNoDigits("null");
  }
}
