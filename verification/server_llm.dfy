/**
 * The relay's upstream call (`createLLMChatCompletion`): it streams a completion,
 * decodes the event lines with a line buffer, and routes each delta through a
 * two-state phase classifier (`isThinking`) into two cumulative texts, the
 * reasoning trace (`thinkingContent`) and the answer (`fullResponse`). Every
 * cumulative text is handed to a callback: `onUpdate` for the answer, the
 * optional `onThinking` for the trace. Callbacks are modelled as the sequence of
 * events they receive.
 */
module ServerLlm {
  import opened Wrappers
  import opened LineBuffer
  import opened Upstream
  import opened Text

  /** The model the relay always asks for. */
  const ModelName: string := "deepseek-r1"

  /** One callback invocation: `onUpdate(text)` or `onThinking(text)`. */
  datatype Event = Update(text: string) | Thinking(text: string)

  /** The classifier's variables and the callback invocations made so far. */
  datatype Classifier = Classifier(isThinking: bool, thinking: string, full: string, emitted: seq<Event>)

  const Start: Classifier := Classifier(false, "", "", [])

  /**
   * The classifier applied to what one complete line carries. A reasoning fragment
   * outside the thinking phase enters it and a content fragment inside it leaves
   * it; either delta is consumed as a signal only. Otherwise the fragment of the
   * current phase is appended and the cumulative text is emitted.
   */
  function Classify(st: Classifier, payload: Option<Payload>, hasThinking: bool): (s': Classifier)
    ensures st.emitted <= s'.emitted && |s'.emitted| <= |st.emitted| + 1
    ensures st.full <= s'.full
    ensures s'.isThinking == st.isThinking ==> st.thinking <= s'.thinking
    ensures !hasThinking ==> s'.emitted == st.emitted || s'.emitted == st.emitted + [Update(s'.full)]
  {
    match payload
    case None => st
    case Some(Malformed) => st
    case Some(Delta(content, reasoning)) =>
      if !Truthy(content) && !Truthy(reasoning) then st
      else if Truthy(reasoning) && !st.isThinking then st.(isThinking := true, thinking := "")
      else if Truthy(content) && st.isThinking then st.(isThinking := false)
      else if st.isThinking then
        var thinking := st.thinking + reasoning.value;
        st.(thinking := thinking, emitted := st.emitted + if hasThinking then [Thinking(thinking)] else [])
      else if Truthy(content) then
        var full := st.full + content.value;
        st.(full := full, emitted := st.emitted + [Update(full)])
      else st
  }

  /** The classifier applied to one complete line. */
  function Step(st: Classifier, line: string, parse: string -> Payload, hasThinking: bool): Classifier {
    Classify(st, LinePayload(line, parse), hasThinking)
  }

  /** The classifier applied to a sequence of line payloads in order. */
  function Classified(st: Classifier, payloads: seq<Option<Payload>>, hasThinking: bool): Classifier {
    if payloads == [] then st
    else Classify(Classified(st, payloads[..|payloads| - 1], hasThinking), payloads[|payloads| - 1], hasThinking)
  }

  /** The classifier applied to the lines in order. */
  function Run(st: Classifier, lines: seq<string>, parse: string -> Payload, hasThinking: bool): Classifier {
    Classified(st, Payloads(lines, parse), hasThinking)
  }

  /** Classifying one more line is one more step. */
  lemma RunSnoc(st: Classifier, lines: seq<string>, line: string, parse: string -> Payload, hasThinking: bool)
    ensures Run(st, lines + [line], parse, hasThinking) == Step(Run(st, lines, parse, hasThinking), line, parse, hasThinking)
  {
    assert (lines + [line])[..|lines|] == lines;
    var ps := Payloads(lines, parse);
    assert Payloads(lines + [line], parse) == ps + [LinePayload(line, parse)];
    assert (ps + [LinePayload(line, parse)])[..|ps|] == ps;
  }

  /** Classifying the first j + 1 lines is one step after classifying the first j. */
  lemma RunNext(st: Classifier, lines: seq<string>, j: nat, parse: string -> Payload, hasThinking: bool)
    requires j < |lines|
    ensures Run(st, lines[..j + 1], parse, hasThinking) == Step(Run(st, lines[..j], parse, hasThinking), lines[j], parse, hasThinking)
  {
    assert lines[..j + 1] == lines[..j] + [lines[j]];
    RunSnoc(st, lines[..j], lines[j], parse, hasThinking);
  }

  /** The loop over the complete lines a chunk yields. */
  method ProcessLines(
    lines: seq<string>, parse: string -> Payload, hasThinking: bool,
    isThinking: bool, thinking: string, full: string, events: seq<Event>)
    returns (isThinking': bool, thinking': string, full': string, events': seq<Event>)
    ensures Classifier(isThinking', thinking', full', events')
            == Run(Classifier(isThinking, thinking, full, events), lines, parse, hasThinking)
  {
    isThinking', thinking', full', events' := isThinking, thinking, full, events;
    ghost var st := Classifier(isThinking, thinking, full, events);
    for j := 0 to |lines|
      invariant Classifier(isThinking', thinking', full', events') == Run(st, lines[..j], parse, hasThinking)
    {
      RunNext(st, lines, j, parse, hasThinking);
      isThinking', thinking', full', events' :=
        ProcessLine(lines[j], parse, hasThinking, isThinking', thinking', full', events');
    }
    assert lines[..|lines|] == lines;
  }

  /**
   * The body of the loop over complete lines: skip a line that carries nothing,
   * otherwise hand its delta to the phase classifier.
   */
  method ProcessLine(
    line: string, parse: string -> Payload, hasThinking: bool,
    isThinking: bool, thinking: string, full: string, events: seq<Event>)
    returns (isThinking': bool, thinking': string, full': string, events': seq<Event>)
    ensures Classifier(isThinking', thinking', full', events')
            == Step(Classifier(isThinking, thinking, full, events), line, parse, hasThinking)
  {
    isThinking', thinking', full', events' := isThinking, thinking, full, events;
    if Trim(line) == "" || Trim(line) == DoneMarker {
      return;
    }
    if DataPrefix <= line {
      var payload := parse(Trim(line[|DataPrefix|..]));
      assert LinePayload(line, parse) == Some(payload);
      if payload.Delta? && (Truthy(payload.content) || Truthy(payload.reasoning)) {
        isThinking', thinking', full', events' :=
          ProcessDelta(payload.content, payload.reasoning, hasThinking, isThinking, thinking, full, events);
      }
    }
  }

  /**
   * One delta with a truthy fragment: a phase change is consumed as a signal only;
   * otherwise the fragment of the current phase is appended and its callback gets
   * the cumulative text.
   */
  method ProcessDelta(
    content: Option<string>, reasoning: Option<string>, hasThinking: bool,
    isThinking: bool, thinking: string, full: string, events: seq<Event>)
    returns (isThinking': bool, thinking': string, full': string, events': seq<Event>)
    requires Truthy(content) || Truthy(reasoning)
    ensures Classifier(isThinking', thinking', full', events')
            == Classify(Classifier(isThinking, thinking, full, events), Some(Delta(content, reasoning)), hasThinking)
  {
    isThinking', thinking', full', events' := isThinking, thinking, full, events;
    if Truthy(reasoning) && !isThinking' {
      isThinking' := true;
      thinking' := "";
      return;
    } else if Truthy(content) && isThinking' {
      isThinking' := false;
      return;
    }
    if isThinking' {
      thinking' := thinking' + reasoning.value;
      if hasThinking {
        events' := events' + [Thinking(thinking')];
      }
    } else if Truthy(content) {
      full' := full' + content.value;
      events' := events' + [Update(full')];
    }
  }

  /** Classifying two runs of payloads one after the other is classifying their concatenation. */
  lemma {:induction false} ClassifiedAppend(st: Classifier, a: seq<Option<Payload>>, b: seq<Option<Payload>>, hasThinking: bool)
    ensures Classified(Classified(st, a, hasThinking), b, hasThinking) == Classified(st, a + b, hasThinking)
  {
    if b == [] {
      assert a + b == a;
    } else {
      ClassifiedAppend(st, a, b[..|b| - 1], hasThinking);
      assert (a + b)[..|a + b| - 1] == a + b[..|b| - 1];
    }
  }

  /** Classifying two runs of lines one after the other is classifying their concatenation. */
  lemma RunAppend(st: Classifier, a: seq<string>, b: seq<string>, parse: string -> Payload, hasThinking: bool)
    ensures Run(Run(st, a, parse, hasThinking), b, parse, hasThinking) == Run(st, a + b, parse, hasThinking)
  {
    PayloadsAppend(a, b, parse);
    ClassifiedAppend(st, Payloads(a, parse), Payloads(b, parse), hasThinking);
  }

  /** A rejection caught by the outer `catch`: an abort resolves with `''`, anything else is rethrown. */
  function Caught(f: Failure): Outcome {
    if f == Aborted then Returned("") else Threw(Thrown(f))
  }

  /**
   * What a call does, as a function of its inputs: the outcome and the callback
   * invocations. The lines classified are the complete lines of the whole
   * stream, so they do not depend on where the chunk boundaries fall.
   */
  function Completion(apiKey: Option<string>, parse: string -> Payload, hasThinking: bool, response: Response): (Outcome, seq<Event>) {
    if !Truthy(apiKey) then (Threw(MissingApiKey), [])
    else
      match response
      case NoResponse(f) => (Caught(f), [])
      case Answered(status, chunks, cut) =>
        if !Ok(status) then (Threw(HttpError(status)), [])
        else
          var r := Run(Start, CompleteLines(Concat(chunks)), parse, hasThinking);
          (if cut.None? then Returned(r.full) else Caught(cut.value), r.emitted)
  }

  /**
   * The `while (true)` loop over `reader.read()`: append each chunk to the buffer,
   * classify the lines it completes, keep the unterminated rest for the next chunk.
   * The result is the classification of the complete lines of the whole stream.
   */
  method ReadStream(chunks: seq<string>, parse: string -> Payload, hasThinking: bool)
    returns (full: string, events: seq<Event>)
    ensures var r := Run(Start, CompleteLines(Concat(chunks)), parse, hasThinking);
            full == r.full && events == r.emitted
  {
    var buffer := "";
    var thinking := "";
    var isThinking := false;
    full, events := "", [];
    var i := 0;
    while i < |chunks|
      invariant 0 <= i <= |chunks|
      invariant buffer == FeedAll(chunks[..i]).1
      invariant Classifier(isThinking, thinking, full, events)
                == Run(Start, FeedAll(chunks[..i]).0, parse, hasThinking)
    {
      ghost var done := FeedAll(chunks[..i]).0;
      var parts := Split(buffer + chunks[i]);
      var lines := parts[..|parts| - 1];
      buffer := parts[|parts| - 1];
      isThinking, thinking, full, events := ProcessLines(lines, parse, hasThinking, isThinking, thinking, full, events);
      RunAppend(Start, done, lines, parse, hasThinking);
      assert chunks[..i + 1][..i] == chunks[..i];
      i := i + 1;
    }
    assert chunks[..i] == chunks;
    FeedAllSplits(chunks);
  }

  /**
   * `createLLMChatCompletion(messages, onUpdate, onThinking, signal)`. `hasThinking`
   * says whether `onThinking` was given; `apiKey` is the environment variable;
   * `response` is what the network delivers for the request made.
   */
  method CreateLLMChatCompletion(
    messages: seq<Turn>, hasThinking: bool, apiKey: Option<string>,
    parse: string -> Payload, response: Response)
    returns (outcome: Outcome, events: seq<Event>, request: Option<UpstreamRequest>)
    ensures (outcome, events) == Completion(apiKey, parse, hasThinking, response)
    ensures request == if Truthy(apiKey) then Some(UpstreamRequest(ModelName, messages, true)) else None
    ensures !Truthy(apiKey) ==> outcome == Threw(MissingApiKey) && events == []
    ensures Truthy(apiKey) && response.Answered? && !Ok(response.status) ==>
              outcome == Threw(HttpError(response.status)) && events == []
    ensures Truthy(apiKey) && response.Answered? && Ok(response.status) && response.cut == Some(Aborted) ==>
              outcome == Returned("")
  {
    if !Truthy(apiKey) {
      return Threw(MissingApiKey), [], None;
    }
    request := Some(UpstreamRequest(ModelName, messages, true));
    if response.NoResponse? {
      return Caught(response.failure), [], request;
    }
    if !Ok(response.status) {
      return Threw(HttpError(response.status)), [], request;
    }
    var full;
    full, events := ReadStream(response.chunks, parse, hasThinking);
    if response.cut.Some? {
      return Caught(response.cut.value), events, request;
    }
    return Returned(full), events, request;
  }

  // ---------------------------------------------------------------------------
  // Properties of the classifier

  /** The texts handed to `onUpdate`, in order. */
  function Updates(events: seq<Event>): seq<string> {
    if events == [] then []
    else
      var last := events[|events| - 1];
      Updates(events[..|events| - 1]) + if last.Update? then [last.text] else []
  }

  /** The texts handed to `onThinking`, in order. */
  function Thoughts(events: seq<Event>): seq<string> {
    if events == [] then []
    else
      var last := events[|events| - 1];
      Thoughts(events[..|events| - 1]) + if last.Thinking? then [last.text] else []
  }

  /** Each text strictly extends the one before it, and the first strictly extends `base`. */
  predicate Extends(base: string, texts: seq<string>) {
    && (texts != [] ==> base < texts[0])
    && forall k :: 0 < k < |texts| ==> texts[k - 1] < texts[k]
  }

  /** The events a run added after the state it started from. */
  function Added(st: Classifier, r: Classifier): seq<Event>
    requires st.emitted <= r.emitted
  {
    r.emitted[|st.emitted|..]
  }

  lemma UpdatesSnoc(events: seq<Event>, extra: seq<Event>)
    requires |extra| <= 1
    ensures Updates(events + extra) == Updates(events) + Updates(extra)
    ensures Thoughts(events + extra) == Thoughts(events) + Thoughts(extra)
  {
    if extra != [] {
      assert (events + extra)[..|events|] == events;
      assert extra[..0] == [];
    } else {
      assert events + extra == events;
    }
  }

  /**
   * One delta through the phase machine. A truthy reasoning fragment outside the
   * thinking phase enters it, resetting the reasoning text; a truthy content
   * fragment inside it leaves it; neither emits. Inside the phase a reasoning
   * fragment is appended and handed to `onThinking`; outside it a content fragment
   * is appended and handed to `onUpdate`. A line without a delta, or a delta
   * without a truthy fragment, changes nothing. At most one callback runs.
   */
  lemma ClassifyPhases(st: Classifier, payload: Option<Payload>, hasThinking: bool, s': Classifier)
    requires s' == Classify(st, payload, hasThinking)
    ensures !(payload.Some? && payload.value.Delta?) ==> s' == st
    ensures payload.Some? && payload.value.Delta? ==>
      var c, r := payload.value.content, payload.value.reasoning;
      && (!Truthy(c) && !Truthy(r) ==> s' == st)
      && (Truthy(r) && !st.isThinking ==> s' == st.(isThinking := true, thinking := ""))
      && (Truthy(c) && st.isThinking ==> s' == st.(isThinking := false))
      && (st.isThinking && Truthy(r) && !Truthy(c) ==>
            && s'.isThinking && s'.thinking == st.thinking + r.value && s'.full == st.full
            && s'.emitted == st.emitted + (if hasThinking then [Thinking(s'.thinking)] else []))
      && (!st.isThinking && Truthy(c) && !Truthy(r) ==>
            && !s'.isThinking && s'.full == st.full + c.value && s'.thinking == st.thinking
            && s'.emitted == st.emitted + [Update(s'.full)])
    ensures s'.emitted == st.emitted
            || (s'.emitted == st.emitted + [Update(s'.full)] && st.full < s'.full)
            || (s'.emitted == st.emitted + [Thinking(s'.thinking)] && hasThinking && st.thinking < s'.thinking)
    ensures s'.isThinking && !st.isThinking ==> s'.thinking == "" && s'.full == st.full && s'.emitted == st.emitted
    ensures !s'.isThinking && st.isThinking ==> s'.thinking == st.thinking && s'.full == st.full && s'.emitted == st.emitted
    ensures s'.isThinking && st.isThinking ==> s'.full == st.full && st.thinking <= s'.thinking
    ensures !s'.isThinking && !st.isThinking ==> s'.thinking == st.thinking && st.full <= s'.full
    ensures s'.full != st.full ==>
              && payload.Some? && payload.value.Delta? && Truthy(payload.value.content)
              && s'.full == st.full + payload.value.content.value
              && s'.emitted == st.emitted + [Update(s'.full)]
    ensures s'.isThinking && st.isThinking && s'.thinking != st.thinking ==>
              && payload.Some? && payload.value.Delta? && Truthy(payload.value.reasoning)
              && s'.thinking == st.thinking + payload.value.reasoning.value
              && s'.emitted == st.emitted + (if hasThinking then [Thinking(s'.thinking)] else [])
  {
  }

  /** What one more payload adds to the texts handed to each callback. */
  lemma AddedSnoc(st: Classifier, r0: Classifier, p: Option<Payload>, hasThinking: bool, r: Classifier)
    requires r == Classify(r0, p, hasThinking) && st.emitted <= r0.emitted
    ensures st.emitted <= r.emitted
    ensures Updates(Added(st, r)) == Updates(Added(st, r0)) + if r.full != r0.full then [r.full] else []
    ensures Thoughts(Added(st, r)) == Thoughts(Added(st, r0))
              + if r.emitted != r0.emitted && r.full == r0.full then [r.thinking] else []
  {
    ClassifyPhases(r0, p, hasThinking, r);
    var extra := r.emitted[|r0.emitted|..];
    assert r.emitted == r0.emitted + extra;
    assert Added(st, r) == Added(st, r0) + extra;
    UpdatesSnoc(Added(st, r0), extra);
    assert extra[..0] == [];
  }

  /** A chain extended by a text that strictly extends its last element stays a chain. */
  lemma ExtendsSnoc(base: string, texts: seq<string>, text: string)
    requires Extends(base, texts)
    requires (if texts == [] then base else texts[|texts| - 1]) < text
    ensures Extends(base, texts + [text])
  {
    var all := texts + [text];
    forall k | 0 < k < |all| ensures all[k - 1] < all[k] {
      if k < |texts| {
        assert all[k] == texts[k] && all[k - 1] == texts[k - 1];
      }
    }
  }

  /**
   * Over any run, the texts handed to `onUpdate` each strictly extend the previous
   * one; the last of them is the final `fullResponse`, which no other step changes.
   */
  lemma {:induction false} UpdatesAccumulate(st: Classifier, payloads: seq<Option<Payload>>, hasThinking: bool)
    ensures var r := Classified(st, payloads, hasThinking);
      && st.emitted <= r.emitted && st.full <= r.full
      && Extends(st.full, Updates(Added(st, r)))
      && (Updates(Added(st, r)) == [] ==> r.full == st.full)
      && (Updates(Added(st, r)) != [] ==> Updates(Added(st, r))[|Updates(Added(st, r))| - 1] == r.full)
  {
    if payloads != [] {
      var init, p := payloads[..|payloads| - 1], payloads[|payloads| - 1];
      UpdatesAccumulate(st, init, hasThinking);
      var r0 := Classified(st, init, hasThinking);
      var r := Classify(r0, p, hasThinking);
      assert r == Classified(st, payloads, hasThinking);
      ClassifyPhases(r0, p, hasThinking, r);
      AddedSnoc(st, r0, p, hasThinking, r);
      if r.full != r0.full {
        ExtendsSnoc(st.full, Updates(Added(st, r0)), r.full);
      } else {
        assert Updates(Added(st, r)) == Updates(Added(st, r0)) + [];
      }
    }
  }

  /**
   * While the classifier stays in the thinking phase, the reasoning text only
   * grows, the texts handed to `onThinking` each strictly extend the previous one,
   * the last of them is the final reasoning text, and `onUpdate` is not called.
   */
  lemma {:induction false} ThinkingAccumulates(st: Classifier, payloads: seq<Option<Payload>>, hasThinking: bool)
    requires forall k :: 0 <= k <= |payloads| ==> Classified(st, payloads[..k], hasThinking).isThinking
    ensures var r := Classified(st, payloads, hasThinking);
      && st.emitted <= r.emitted && r.full == st.full && st.thinking <= r.thinking
      && Updates(Added(st, r)) == []
      && Extends(st.thinking, Thoughts(Added(st, r)))
      && (!hasThinking ==> Thoughts(Added(st, r)) == [])
      && (Thoughts(Added(st, r)) != [] ==> Thoughts(Added(st, r))[|Thoughts(Added(st, r))| - 1] == r.thinking)
  {
    if payloads != [] {
      var init, p := payloads[..|payloads| - 1], payloads[|payloads| - 1];
      forall k | 0 <= k <= |init| ensures Classified(st, init[..k], hasThinking).isThinking {
        assert init[..k] == payloads[..k];
      }
      ThinkingAccumulates(st, init, hasThinking);
      var r0 := Classified(st, init, hasThinking);
      var r := Classify(r0, p, hasThinking);
      assert r == Classified(st, payloads, hasThinking);
      assert r0.isThinking by { assert payloads[..|init|] == init; }
      assert r.isThinking by { assert payloads[..|payloads|] == payloads; }
      ClassifyPhases(r0, p, hasThinking, r);
      AddedSnoc(st, r0, p, hasThinking, r);
      if r.emitted != r0.emitted {
        ExtendsSnoc(st.thinking, Thoughts(Added(st, r0)), r.thinking);
      } else {
        assert Thoughts(Added(st, r)) == Thoughts(Added(st, r0)) + [];
      }
    }
  }

  /** A payload with a truthy `content` and no truthy `reasoning_content`. */
  predicate ContentOnly(payload: Option<Payload>) {
    match payload
    case Some(Delta(content, reasoning)) => Truthy(content) && !Truthy(reasoning)
    case _ => false
  }

  /**
   * Outside the thinking phase, a stream of content-only deltas calls `onUpdate`
   * exactly once per delta and `onThinking` never; with `UpdatesAccumulate`, the
   * texts strictly grow.
   */
  lemma {:induction false} ContentOnlyStream(st: Classifier, payloads: seq<Option<Payload>>, hasThinking: bool)
    requires !st.isThinking
    requires forall i :: 0 <= i < |payloads| ==> ContentOnly(payloads[i])
    ensures var r := Classified(st, payloads, hasThinking);
      && !r.isThinking && st.emitted <= r.emitted
      && |r.emitted| == |st.emitted| + |payloads|
      && forall i :: |st.emitted| <= i < |r.emitted| ==> r.emitted[i].Update?
  {
    if payloads != [] {
      var init, p := payloads[..|payloads| - 1], payloads[|payloads| - 1];
      ContentOnlyStream(st, init, hasThinking);
      var r0 := Classified(st, init, hasThinking);
      assert ContentOnly(p);
      assert Classify(r0, p, hasThinking).emitted == r0.emitted + [Update(r0.full + p.value.content.value)];
    }
  }

  /** A line the decoder must ignore leaves the classifier as it was. */
  lemma InertStep(st: Classifier, line: string, parse: string -> Payload, hasThinking: bool)
    requires Inert(line, parse)
    ensures Step(st, line, parse, hasThinking) == st
  {
  }

  /** A line the decoder must ignore leaves the whole run as if it were absent. */
  lemma RunSkipsInert(st: Classifier, before: seq<string>, line: string, after: seq<string>, parse: string -> Payload, hasThinking: bool)
    requires Inert(line, parse)
    ensures Run(st, before + [line] + after, parse, hasThinking) == Run(st, before + after, parse, hasThinking)
  {
    RunSnoc(st, before, line, parse, hasThinking);
    InertStep(Run(st, before, parse, hasThinking), line, parse, hasThinking);
    RunAppend(st, before + [line], after, parse, hasThinking);
    RunAppend(st, before, after, parse, hasThinking);
  }

  /**
   * Text after the last newline of the stream is never classified: adding a
   * newline-free chunk at the end changes neither the callbacks nor the outcome.
   */
  lemma TrailingPartialLineIgnored(apiKey: Option<string>, parse: string -> Payload, hasThinking: bool,
                                   status: nat, chunks: seq<string>, tail: string, cut: Option<Failure>)
    requires NoNewline(tail)
    ensures Completion(apiKey, parse, hasThinking, Answered(status, chunks + [tail], cut))
            == Completion(apiKey, parse, hasThinking, Answered(status, chunks, cut))
  {
    FeedAllSplits(chunks);
    FeedAllSplits(chunks + [tail]);
    TrailingPartialNotProcessed(chunks, tail);
  }

  /**
   * On a stream that ends normally the call resolves with the last text handed to
   * `onUpdate`, or with `''` if there was none.
   */
  lemma ReturnsLastUpdate(apiKey: Option<string>, parse: string -> Payload, hasThinking: bool,
                          status: nat, chunks: seq<string>)
    requires Truthy(apiKey) && Ok(status)
    ensures var (outcome, events) := Completion(apiKey, parse, hasThinking, Answered(status, chunks, None));
      && outcome.Returned?
      && outcome.text == (if Updates(events) == [] then "" else Updates(events)[|Updates(events)| - 1])
  {
    var r := Run(Start, CompleteLines(Concat(chunks)), parse, hasThinking);
    UpdatesAccumulate(Start, Payloads(CompleteLines(Concat(chunks)), parse), hasThinking);
    assert Added(Start, r) == r.emitted;
  }

  /**
   * Reasoning "a", reasoning "b", content "x", content "y": the first delta only
   * enters the thinking phase and the third only leaves it, so the callbacks see
   * `onThinking("b")` and then `onUpdate("y")`, and the call resolves with "y".
   */
  lemma ReasoningThenContentExample()
    ensures var r := Classified(Start, [Some(Delta(None, Some("a"))), Some(Delta(None, Some("b"))),
                                        Some(Delta(Some("x"), None)), Some(Delta(Some("y"), None))], true);
      r.emitted == [Thinking("b"), Update("y")] && r.full == "y"
  {
    var ps := [Some(Delta(None, Some("a"))), Some(Delta(None, Some("b"))),
               Some(Delta(Some("x"), None)), Some(Delta(Some("y"), None))];
    assert ps[..1][..0] == [];
    var s1 := Classify(Start, ps[0], true);
    assert s1 == Classifier(true, "", "", []);
    assert Classified(Start, ps[..1], true) == s1;
    assert ps[..2][..1] == ps[..1];
    var s2 := Classify(s1, ps[1], true);
    assert "" + "b" == "b" && [] + [Thinking("b")] == [Thinking("b")];
    assert s2 == Classifier(true, "b", "", [Thinking("b")]);
    assert Classified(Start, ps[..2], true) == s2;
    assert ps[..3][..2] == ps[..2];
    var s3 := Classify(s2, ps[2], true);
    assert s3 == Classifier(false, "b", "", [Thinking("b")]);
    assert Classified(Start, ps[..3], true) == s3;
    assert ps[..3] == ps[..|ps| - 1];
    assert Classified(Start, ps, true) == Classify(s3, ps[3], true);
    assert "" + "y" == "y" && [Thinking("b")] + [Update("y")] == [Thinking("b"), Update("y")];
    assert Classify(s3, ps[3], true) == Classifier(false, "b", "y", [Thinking("b"), Update("y")]);
  }
}
