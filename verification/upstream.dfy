/**
 * The interface both streaming decoders share with the completion API: the request
 * body they send, the response they read, the per-line framing of the event stream
 * and the errors a call can end with. JSON parsing itself is a parameter
 * (`parse: string -> Payload`), standing for `JSON.parse` plus the shape guards
 * on `choices[0].delta`.
 */
module Upstream {
  import opened Wrappers
  import opened Text

  datatype Role = User | Assistant | System

  /** One message of the history as sent upstream: the `{role, content}` projection. */
  datatype Turn = Turn(role: Role, content: string)

  /** The JSON body of the upstream call: `{model, messages, stream}`. */
  datatype UpstreamRequest = UpstreamRequest(model: string, messages: seq<Turn>, stream: bool)

  /** Why a transport step rejected: the abort signal fired, or some other failure. */
  datatype Failure = Aborted | Broken(message: string)

  /**
   * What the network delivers: either `fetch` rejects before any response, or a
   * response arrives with its status and the decoded chunks that `reader.read()`
   * yields; `cut` says whether the reader then reported done (`None`) or rejected.
   */
  datatype Response =
    | NoResponse(failure: Failure)
    | Answered(status: nat, chunks: seq<string>, cut: Option<Failure>)

  /** `response.ok`. */
  predicate Ok(status: nat) {
    200 <= status <= 299
  }

  /** A parsed event line: unparsable JSON, or a delta with its optional fragments. */
  datatype Payload = Malformed | Delta(content: Option<string>, reasoning: Option<string>)

  /** JavaScript truthiness of an optional string: present and not empty. */
  predicate Truthy(fragment: Option<string>) {
    fragment.Some? && fragment.value != ""
  }

  const DataPrefix: string := "data: "
  const DoneMarker: string := "data: [DONE]"

  /**
   * The payload a complete line carries, or `None` for a line the decoders skip
   * before parsing: blank after trimming, the `[DONE]` terminator, or no `data: `
   * prefix on the untrimmed line. The JSON text is the rest of the line, trimmed.
   */
  function LinePayload(line: string, parse: string -> Payload): Option<Payload> {
    var trimmed := Trim(line);
    if trimmed == "" || trimmed == DoneMarker then None
    else if !(DataPrefix <= line) then None
    else Some(parse(Trim(line[|DataPrefix|..])))
  }

  /** A line with the `data: ` prefix is not blank. */
  lemma PrefixedNotBlank(line: string)
    ensures DataPrefix <= line ==> Trim(line) != ""
  {
    if DataPrefix <= line {
      assert line[0] == 'd' && line[4] == ':';
      assert TrimStart(line) == line;
      assert |TrimEnd(line)| > 4;
    }
  }

  /**
   * A line carries a payload exactly when it has the `data: ` prefix and is not the
   * `[DONE]` terminator (padding around the terminator included): a prefixed line
   * is never blank.
   */
  lemma LinePayloadCarries(line: string, parse: string -> Payload)
    ensures LinePayload(line, parse).Some? <==> DataPrefix <= line && Trim(line) != DoneMarker
  {
    PrefixedNotBlank(line);
  }

  /** What each line carries, in order. */
  function Payloads(lines: seq<string>, parse: string -> Payload): (ps: seq<Option<Payload>>)
    ensures |ps| == |lines|
    ensures forall i :: 0 <= i < |lines| ==> ps[i] == LinePayload(lines[i], parse)
  {
    seq(|lines|, i requires 0 <= i < |lines| => LinePayload(lines[i], parse))
  }

  /** The payloads of two runs of lines, one after the other. */
  lemma PayloadsAppend(a: seq<string>, b: seq<string>, parse: string -> Payload)
    ensures Payloads(a + b, parse) == Payloads(a, parse) + Payloads(b, parse)
  {
    var ab := a + b;
    assert forall i :: 0 <= i < |b| ==> ab[|a| + i] == b[i];
  }

  /** A line the decoders must not act on: skipped, malformed, or a delta with no truthy fragment. */
  predicate Inert(line: string, parse: string -> Payload) {
    match LinePayload(line, parse)
    case None => true
    case Some(Malformed) => true
    case Some(Delta(content, reasoning)) => !Truthy(content) && !Truthy(reasoning)
  }

  /** A line consisting of white space only carries nothing. */
  lemma BlankLineInert(line: string, parse: string -> Payload)
    requires forall k :: 0 <= k < |line| ==> IsSpace(line[k])
    ensures LinePayload(line, parse) == None && Inert(line, parse)
  {
    TrimAllSpace(line);
  }

  /** A line without the `data: ` prefix carries nothing, whatever its JSON would say. */
  lemma UnprefixedLineInert(line: string, parse: string -> Payload)
    requires !(DataPrefix <= line)
    ensures LinePayload(line, parse) == None
  {
  }

  /** The error a call ends with. */
  datatype Error =
    | MissingApiKey
    | HttpError(status: nat)
    | Thrown(failure: Failure)

  /** `error.message` as it reaches the client. */
  function Message(e: Error): string {
    match e
    // "API key not configured"
    case MissingApiKey => "API\U{5BC6}\U{94A5}\U{672A}\U{914D}\U{7F6E}"
    case HttpError(status) => "HTTP error! status: " + Decimal(status)
    case Thrown(Aborted) => "This operation was aborted"
    case Thrown(Broken(message)) => message
  }

  /** How a call ends: it resolves with a text, or it rejects with an error. */
  datatype Outcome = Returned(text: string) | Threw(error: Error)
}
