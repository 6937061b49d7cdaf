/**
 * The relay's HTTP handlers: `/api/chat` validates the history, registers an
 * abort controller under the session id (aborting the one it supersedes), relays
 * the upstream call's callbacks as event-stream frames, and on normal return
 * writes the terminator and deletes the session's registry entry; `/api/abort`
 * aborts and deletes a session's entry. The registry is the module-level
 * `activeRequestControllers` map; a response is a sink of frames plus at most one
 * JSON reply.
 */
module RelayServer {
  import opened Wrappers
  import opened Upstream
  import opened ServerLlm
  import opened Frames

  /** 无效的消息格式 */
  const InvalidMessages: string := "\U{65e0}\U{6548}\U{7684}\U{6d88}\U{606f}\U{683c}\U{5f0f}"
  /** 处理请求时出错 */
  const HandlingFailed: string := "\U{5904}\U{7406}\U{8bf7}\U{6c42}\U{65f6}\U{51fa}\U{9519}"
  /** 缺少会话ID */
  const MissingSession: string := "\U{7f3a}\U{5c11}\U{4f1a}\U{8bdd}ID"
  /** 未找到活跃的请求 */
  const NoActiveRequest: string := "\U{672a}\U{627e}\U{5230}\U{6d3b}\U{8dc3}\U{7684}\U{8bf7}\U{6c42}"
  /** 请求已中止 */
  const RequestAborted: string := "\U{8bf7}\U{6c42}\U{5df2}\U{4e2d}\U{6b62}"

  /** An `AbortController`: aborting sets its signal's flag, once and for all. */
  class Controller {
    var aborted: bool

    constructor()
      ensures !aborted
    {
      aborted := false;
    }

    method Abort()
      modifies this
      ensures aborted
    {
      aborted := true;
    }
  }

  /** A JSON reply body: `{error}` or `{success: true, message}`. */
  datatype Body = Failed(error: string) | Succeeded(message: string)

  datatype Reply = Reply(status: nat, body: Body)

  /** An HTTP response: the frames written so far, the JSON reply if one was sent, and whether it ended. */
  class Sink {
    var frames: seq<Frame>
    var reply: Option<Reply>
    var ended: bool

    constructor()
      ensures frames == [] && reply == None && !ended
    {
      frames, reply, ended := [], None, false;
    }

    /** `res.headersSent`: true once anything has gone out. */
    predicate HeadersSent()
      reads this
    {
      frames != [] || reply.Some?
    }

    /** `res.write(<frame>)`. */
    method Write(f: Frame)
      modifies this
      ensures frames == old(frames) + [f] && reply == old(reply) && ended == old(ended)
    {
      frames := frames + [f];
    }

    /** Successive `res.write` calls, one per frame. */
    method WriteAll(fs: seq<Frame>)
      modifies this
      ensures frames == old(frames) + fs && reply == old(reply) && ended == old(ended)
    {
      for k := 0 to |fs|
        invariant frames == old(frames) + fs[..k]
        invariant reply == old(reply) && ended == old(ended)
      {
        assert fs[..k + 1] == fs[..k] + [fs[k]];
        Write(fs[k]);
      }
      assert fs[..|fs|] == fs;
    }

    /** `res.end()`. */
    method End()
      modifies this
      ensures ended && frames == old(frames) && reply == old(reply)
    {
      ended := true;
    }

    /** `res.status(status).json(body)`, which also ends the response. */
    method Json(status: nat, body: Body)
      modifies this
      ensures reply == Some(Reply(status, body)) && ended && frames == old(frames)
    {
      reply := Some(Reply(status, body));
      ended := true;
    }
  }

  /** The frame `res.write` sends for one callback of the upstream call. */
  function FrameOf(e: Event): Frame {
    match e
    case Update(text) => ContentFrame(text)
    case Thinking(text) => ThinkingFrame(text)
  }

  /** The frames for the callbacks, in callback order. */
  function EventFrames(events: seq<Event>): (frames: seq<Frame>)
    ensures |frames| == |events|
    ensures forall i :: 0 <= i < |events| ==> frames[i] == FrameOf(events[i])
  {
    seq(|events|, i requires 0 <= i < |events| => FrameOf(events[i]))
  }

  /** The relay's state: the `activeRequestControllers` registry. */
  class ChatServer {
    var active: map<string, Controller>

    /**
     * No controller is registered under two session ids, and no registered
     * controller has been aborted: superseding and aborting both remove the
     * aborted controller from the map.
     */
    predicate Valid()
      reads this, active.Values
    {
      && (forall k, k' :: k in active && k' in active && k != k' ==> active[k] != active[k'])
      && (forall k :: k in active ==> !active[k].aborted)
    }

    constructor()
      ensures active == map[] && Valid()
    {
      active := map[];
    }

    /**
     * The `/api/chat` handler up to the upstream call: reject a history that is
     * not an array with 400, otherwise make a controller and, when the session id
     * is truthy, abort the controller it supersedes and register the new one.
     */
    method StartChat(messages: Option<seq<Turn>>, sessionId: Option<string>, sink: Sink)
      returns (controller: Option<Controller>)
      requires Valid()
      modifies this, sink, active.Values
      ensures Valid()
      ensures messages.None? ==>
                && controller.None? && active == old(active)
                && sink.reply == Some(Reply(400, Failed(InvalidMessages))) && sink.ended
                && sink.frames == old(sink.frames)
      ensures messages.Some? ==>
                && controller.Some? && fresh(controller.value) && !controller.value.aborted
                && sink.frames == old(sink.frames) && sink.reply == old(sink.reply) && sink.ended == old(sink.ended)
      ensures messages.Some? && Truthy(sessionId) ==>
                && active == old(active)[sessionId.value := controller.value]
                && (sessionId.value in old(active) ==> old(active)[sessionId.value].aborted)
      ensures !(messages.Some? && Truthy(sessionId)) ==> active == old(active)
    {
      if messages.None? {
        sink.Json(400, Failed(InvalidMessages));
        return None;
      }
      var c := new Controller();
      if Truthy(sessionId) {
        var key := sessionId.value;
        if key in active {
          active[key].Abort();
        }
        active := active[key := c];
      }
      return Some(c);
    }

    /**
     * The `/api/chat` handler from the upstream call on. The relay always passes
     * `onThinking`. Each callback becomes a frame as it happens. On return: the
     * terminator, the end of the response, and the deletion of the session id
     * whatever controller it maps to now. On a throw: a 500 reply if nothing was
     * sent yet, otherwise one error frame and the end; the registry is untouched.
     */
    method FinishChat(messages: seq<Turn>, sessionId: Option<string>, apiKey: Option<string>,
                      parse: string -> Payload, response: Response, sink: Sink)
      returns (outcome: Outcome, request: Option<UpstreamRequest>)
      requires Valid()
      modifies this, sink
      ensures Valid()
      ensures var (o, events) := Completion(apiKey, parse, true, response);
        && outcome == o
        && (o.Returned? ==>
              && sink.frames == old(sink.frames) + EventFrames(events) + [DoneFrame]
              && sink.reply == old(sink.reply) && sink.ended
              && active == if Truthy(sessionId) then old(active) - {sessionId.value} else old(active))
        && (o.Threw? && !old(sink.HeadersSent()) && events == [] ==>
              && sink.reply == Some(Reply(500, Failed(HandlingFailed))) && sink.ended
              && sink.frames == old(sink.frames) && active == old(active))
        && (o.Threw? && (old(sink.HeadersSent()) || events != []) ==>
              && sink.frames == old(sink.frames) + EventFrames(events) + [ErrorFrame(Message(o.error))]
              && sink.reply == old(sink.reply) && sink.ended && active == old(active))
      ensures request == if Truthy(apiKey) then Some(UpstreamRequest(ModelName, messages, true)) else None
    {
      var events;
      outcome, events, request := CreateLLMChatCompletion(messages, true, apiKey, parse, response);
      sink.WriteAll(EventFrames(events));
      match outcome
      case Returned(_) =>
        sink.Write(DoneFrame);
        sink.End();
        if Truthy(sessionId) {
          active := active - {sessionId.value};
        }
      case Threw(e) =>
        if !sink.HeadersSent() {
          sink.Json(500, Failed(HandlingFailed));
        } else {
          sink.Write(ErrorFrame(Message(e)));
          sink.End();
        }
    }

    /**
     * The whole `/api/chat` handler with no other handler running in between:
     * an invalid history gets 400 and no upstream call; otherwise the controller
     * registered under the session id is aborted, the request goes out, a normal
     * return leaves the session id unregistered, and a throw leaves the new
     * controller registered under it.
     */
    method HandleChat(messages: Option<seq<Turn>>, sessionId: Option<string>, apiKey: Option<string>,
                      parse: string -> Payload, response: Response, sink: Sink)
      returns (controller: Option<Controller>, request: Option<UpstreamRequest>)
      requires Valid()
      requires !sink.HeadersSent()
      modifies this, sink, active.Values
      ensures Valid()
      ensures messages.None? ==>
                && controller.None? && request.None? && active == old(active)
                && sink.reply == Some(Reply(400, Failed(InvalidMessages))) && sink.frames == old(sink.frames)
                && sink.ended
      ensures messages.Some? ==>
        var (o, events) := Completion(apiKey, parse, true, response);
        && controller.Some? && !controller.value.aborted
        && (o.Returned? ==>
              && sink.frames == EventFrames(events) + [DoneFrame] && sink.reply.None? && sink.ended
              && active == if Truthy(sessionId) then old(active) - {sessionId.value} else old(active))
        && (o.Threw? && events == [] ==>
              sink.reply == Some(Reply(500, Failed(HandlingFailed))) && sink.frames == [] && sink.ended)
        && (o.Threw? && events != [] ==>
              sink.frames == EventFrames(events) + [ErrorFrame(Message(o.error))] && sink.reply.None? && sink.ended)
        && (o.Threw? ==>
              active == if Truthy(sessionId) then old(active)[sessionId.value := controller.value] else old(active))
      ensures messages.Some? ==>
                request == if Truthy(apiKey) then Some(UpstreamRequest(ModelName, messages.value, true)) else None
      ensures messages.Some? && Truthy(sessionId) && sessionId.value in old(active) ==>
                old(active)[sessionId.value].aborted
    {
      ghost var superseded: Option<Controller> :=
        if Truthy(sessionId) && sessionId.value in active then Some(active[sessionId.value]) else None;
      controller := StartChat(messages, sessionId, sink);
      if controller.None? {
        return controller, None;
      }
      assert messages.Some? && superseded.Some? ==> superseded.value.aborted;
      var c := controller.value;
      ghost var registered := active;
      var _, req := FinishChat(messages.value, sessionId, apiKey, parse, response, sink);
      request := req;
      if Truthy(sessionId) {
        assert registered - {sessionId.value} == old(active) - {sessionId.value};
      }
      assert superseded.Some? ==> superseded.value.aborted;
    }

    /**
     * The `/api/abort` handler: 400 without a session id; for a registered one,
     * abort its controller, delete the entry and report success; otherwise 404.
     */
    method Abort(sessionId: Option<string>, sink: Sink)
      requires Valid()
      modifies this, sink, active.Values
      ensures Valid()
      ensures sink.frames == old(sink.frames) && sink.ended
      ensures !Truthy(sessionId) ==>
                active == old(active) && sink.reply == Some(Reply(400, Failed(MissingSession)))
      ensures Truthy(sessionId) && sessionId.value in old(active) ==>
                && old(active)[sessionId.value].aborted
                && active == old(active) - {sessionId.value}
                && sink.reply == Some(Reply(200, Succeeded(RequestAborted)))
      ensures Truthy(sessionId) && sessionId.value !in old(active) ==>
                active == old(active) && sink.reply == Some(Reply(404, Failed(NoActiveRequest)))
    {
      if !Truthy(sessionId) {
        sink.Json(400, Failed(MissingSession));
        return;
      }
      var key := sessionId.value;
      if key in active {
        active[key].Abort();
        active := active - {key};
        sink.Json(200, Succeeded(RequestAborted));
        return;
      }
      sink.Json(404, Failed(NoActiveRequest));
    }
  }

  /**
   * Two requests for session "s": the second supersedes the first and aborts it.
   * The first then returns `''` from the upstream call and, completing normally,
   * deletes "s" although it now maps to the second, still running request, so
   * an abort for "s" finds nothing and answers 404.
   */
  method SupersededCompletionEvictsSuccessor()
    returns (first: Controller, second: Controller, status: nat, registered: bool)
    ensures first.aborted && !second.aborted
    ensures !registered && status == 404
  {
    var server := new ChatServer();
    var sink1 := new Sink();
    var c1 := server.StartChat(Some([]), Some("s"), sink1);
    first := c1.value;
    var sink2 := new Sink();
    var c2 := server.StartChat(Some([]), Some("s"), sink2);
    second := c2.value;
    var upstream := Answered(200, [], Some(Aborted));
    var outcome, _ := server.FinishChat([], Some("s"), Some("key"), _ => Malformed, upstream, sink1);
    registered := "s" in server.active;
    var sink3 := new Sink();
    server.Abort(Some("s"), sink3);
    status := sink3.reply.value.status;
  }
}
