/**
 * The browser's chat store (`useChatStore`): an array of messages changed in place
 * by its actions, and a `loading` flag. Sending a message appends the user's
 * message and an empty assistant placeholder, streams the completion into the
 * placeholder, and marks it complete only when the call succeeds.
 */
module ChatStore {
  import opened Wrappers
  import opened Upstream
  import opened ClientLlm
  import opened LineBuffer

  /**
   * One stored message: its role, its content and its `streaming` flag, which a
   * user message does not have until `setMessageComplete` writes it.
   */
  datatype Message = Message(role: Role, content: string, streaming: Option<bool>)

  /** The `{role, content}` projection sent upstream. */
  function Project(messages: seq<Message>): (turns: seq<Turn>)
    ensures |turns| == |messages|
    ensures forall i :: 0 <= i < |messages| ==> turns[i] == Turn(messages[i].role, messages[i].content)
  {
    seq(|messages|, i requires 0 <= i < |messages| => Turn(messages[i].role, messages[i].content))
  }

  /** The last text of a non-empty sequence, or `otherwise`. */
  function LastOr(texts: seq<string>, otherwise: string): string {
    if texts == [] then otherwise else texts[|texts| - 1]
  }

  class Store {
    var messages: seq<Message>
    var loading: bool

    /** The initial state: no messages, not loading. */
    constructor()
      ensures messages == [] && !loading
    {
      messages := [];
      loading := false;
    }

    /** `addUserMessage(content)`: append one user message. */
    method AddUserMessage(content: string)
      modifies this
      ensures messages == old(messages) + [Message(User, content, None)]
      ensures loading == old(loading)
    {
      messages := messages + [Message(User, content, None)];
    }

    /** `addModelMessage(content)`: append a streaming assistant message and return its index. */
    method AddModelMessage(content: string) returns (index: nat)
      modifies this
      ensures messages == old(messages) + [Message(Assistant, content, Some(true))]
      ensures index == |old(messages)| && messages[index].content == content
      ensures loading == old(loading)
    {
      messages := messages + [Message(Assistant, content, Some(true))];
      index := |messages| - 1;
    }

    /** `updateModelMessage(index, content)`: replace one message's content; out of range, nothing. */
    method UpdateModelMessage(index: int, content: string)
      modifies this
      ensures 0 <= index < |old(messages)| ==>
                messages == old(messages)[index := old(messages)[index].(content := content)]
      ensures !(0 <= index < |old(messages)|) ==> messages == old(messages)
      ensures loading == old(loading)
    {
      if 0 <= index < |messages| {
        messages := messages[index := messages[index].(content := content)];
      }
    }

    /** `setMessageComplete(index)`: clear one message's `streaming` flag; out of range, nothing. */
    method SetMessageComplete(index: int)
      modifies this
      ensures 0 <= index < |old(messages)| ==>
                messages == old(messages)[index := old(messages)[index].(streaming := Some(false))]
      ensures !(0 <= index < |old(messages)|) ==> messages == old(messages)
      ensures loading == old(loading)
    {
      if 0 <= index < |messages| {
        messages := messages[index := messages[index].(streaming := Some(false))];
      }
    }

    /** `setLoading(status)`. */
    method SetLoading(status: bool)
      modifies this
      ensures loading == status && messages == old(messages)
    {
      loading := status;
    }

    /** The `onUpdate` callback of `sendMessageToLLM`, called once per text, in order. */
    method StreamInto(index: nat, updates: seq<string>)
      requires index < |messages|
      modifies this
      ensures messages == old(messages)[index := old(messages)[index].(content := LastOr(updates, old(messages)[index].content))]
      ensures loading == old(loading)
    {
      ghost var before := messages;
      for k := 0 to |updates|
        invariant messages == before[index := before[index].(content := LastOr(updates[..k], before[index].content))]
        invariant loading == old(loading)
      {
        assert updates[..k + 1][..k] == updates[..k];
        UpdateModelMessage(index, updates[k]);
      }
      assert updates[..|updates|] == updates;
    }

    /**
     * `sendMessageToLLM(userMessage)`, with `parse` and `response` standing for
     * what the completion call reads. Appends the user message and an empty
     * placeholder, sends the projection of every message (the placeholder
     * included), copies each `onUpdate` text into the placeholder, marks it
     * complete only on success, and ends not loading. `sent` is the history sent.
     */
    method SendMessageToLLM(userMessage: string, parse: string -> Payload, response: Response)
      returns (sent: seq<Turn>)
      modifies this
      ensures sent == Project(old(messages)) + [Turn(User, userMessage), Turn(Assistant, "")]
      ensures var (outcome, updates) := ClientCompletion(parse, response);
              messages == old(messages) + [Message(User, userMessage, None),
                                           Message(Assistant, LastOr(updates, ""), Some(outcome.Threw?))]
      ensures ClientCompletion(parse, response).0.Returned? ==>
                messages[|messages| - 1].content == ClientCompletion(parse, response).0.text
      ensures !loading
    {
      ghost var before := messages;
      AddUserMessage(userMessage);
      SetLoading(true);
      var index := AddModelMessage("");
      sent := Project(messages);
      assert sent == Project(before) + [Turn(User, userMessage), Turn(Assistant, "")];
      var outcome, updates, _ := CreateChatCompletion(sent, parse, response);
      StreamInto(index, updates);
      if outcome.Returned? {
        SetMessageComplete(index);
        ReturnedIsLastUpdate(parse, response);
      }
      SetLoading(false);
    }
  }

  /** On success the result is the last text handed to `onUpdate`, or `''` if there was none. */
  lemma ReturnedIsLastUpdate(parse: string -> Payload, response: Response)
    ensures var (outcome, updates) := ClientCompletion(parse, response);
            outcome.Returned? ==> outcome.text == LastOr(updates, "")
  {
    if response.Answered? && Ok(response.status) {
      UpdatesGrow(Payloads(CompleteLines(Concat(response.chunks)), parse));
    }
  }
}
