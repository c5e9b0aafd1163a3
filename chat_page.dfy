/**
 * The controller of app/chat/page.tsx: the conversation shown on the page,
 * the input box and the loading flag. `handleSend` is split at its one
 * suspension point: `BeginSend` runs up to the request, `CompleteSend` runs
 * the `then`/`catch`/`finally` tail once the request has settled.
 */
module Chat {
  import opened JsText
  import opened Api
  import ChatApi

  datatype Role = User | Assistant
  datatype Message = Message(role: Role, content: string)

  /** The assistant turn shown when the request fails in any way. */
  const ApologyText: string := "Sorry, I encountered an error. " + "Please make sure the Google API key is configured."

  /** The JSON request the page posts: the new message and the history before it. */
  datatype SendRequest = SendRequest(message: string, history: seq<Message>)

  function WireRole(r: Role): (s: string)
    ensures s == "user" || s == "assistant"
    ensures s == "assistant" <==> r == Assistant
    ensures ChatApi.ModelRole(s) == if r == Assistant then "model" else "user"
  {
    match r
    case User => "user"
    case Assistant => "assistant"
  }

  /** `JSON.stringify` of the message list, as the chat route receives it. */
  function ToWire(ms: seq<Message>): (h: seq<ChatApi.HistoryEntry>)
    ensures |h| == |ms|
    ensures forall i :: 0 <= i < |ms| ==> h[i] == ChatApi.HistoryEntry(WireRole(ms[i].role), ms[i].content)
  {
    if ms == [] then [] else [ChatApi.HistoryEntry(WireRole(ms[0].role), ms[0].content)] + ToWire(ms[1..])
  }

  /** The parsed body the route sees for a request of this page. */
  function Wire(req: SendRequest): ChatApi.ChatRequest {
    ChatApi.ChatRequest(req.message, Some(ToWire(req.history)))
  }

  /**
   * What the page takes from the route's response: the `message` of a success,
   * nothing when `data.error` is set.
   */
  function AnswerOf(r: Response): (a: Option<string>)
    ensures a.Some? <==> r.body.MessageBody?
    ensures a.Some? ==> a.value == r.body.message
  {
    match r.body
    case MessageBody(m) => Some(m)
    case _ => None
  }

  /** The assistant turn the page appends for a settled request. */
  function Reply(answer: Option<string>): (m: Message)
    ensures m.role == Assistant
    ensures answer.Some? ==> m.content == answer.value
    ensures answer.None? ==> m.content == ApologyText
  {
    match answer
    case Some(text) => Message(Assistant, text)
    case None => Message(Assistant, ApologyText)
  }

  /**
   * From the page to the model and back: the model sees the page's history in
   * order with the roles mapped, and the page shows the model's text, or the
   * apology when the model fails.
   */
  lemma SendRoundTrip(req: SendRequest, model: ChatApi.ChatCall -> ModelReply)
    ensures var h := ChatApi.Post(Some(Wire(req)), model);
      && h.call.Some?
      && h.call.value.message == req.message
      && ChatApi.FromModelHistory(h.call.value.history) == ToWire(req.history)
      && Reply(AnswerOf(h.response)) == Message(Assistant,
           match model(h.call.value) case Generated(t) => t case ModelFailure => ApologyText)
  {
    ChatApi.ModelHistoryRoundTrip(ToWire(req.history));
  }

  class ChatPage {
    var messages: seq<Message>
    var input: string
    var isLoading: bool

    /** Every user turn on the page is non-empty and already trimmed. */
    ghost predicate Valid()
      reads this
    {
      forall i :: 0 <= i < |messages| && messages[i].role == User ==>
        messages[i].content != [] && IsTrimmed(messages[i].content)
    }

    constructor ()
      ensures Valid() && messages == [] && input == "" && !isLoading
    {
      messages := [];
      input := "";
      isLoading := false;
    }

    /** The send button is enabled only for a non-blank input while nothing is in flight. */
    function CanSend(): (enabled: bool)
      reads this
      ensures enabled <==> !IsBlank(input) && !isLoading
    {
      Trim(input) != [] && !isLoading
    }

    /**
     * `handleSend` up to the request. A blank input changes nothing and sends
     * nothing; otherwise the input is cleared, the trimmed turn is appended, the
     * page starts loading, and the request carries the history from before the
     * append.
     */
    method BeginSend() returns (req: Option<SendRequest>)
      requires Valid()
      modifies this
      ensures Valid()
      ensures IsBlank(old(input)) ==> req.None? && unchanged(this)
      ensures !IsBlank(old(input)) ==>
                && req == Some(SendRequest(Trim(old(input)), old(messages)))
                && input == ""
                && messages == old(messages) + [Message(User, Trim(old(input)))]
                && isLoading
    {
      if TrimsToEmpty(input) {
        return None;
      }
      var userMessage := Trim(input);
      var history := messages;
      input := "";
      messages := messages + [Message(User, userMessage)];
      isLoading := true;
      req := Some(SendRequest(userMessage, history));
      forall i | 0 <= i < |messages| && messages[i].role == User
        ensures messages[i].content != [] && IsTrimmed(messages[i].content)
      {
        if i < |history| {
          assert messages[i] == history[i];
        }
      }
    }

    /**
     * The tail of `handleSend` once the request settles: exactly one assistant
     * turn is appended to the messages as they are now, and loading stops.
     */
    method CompleteSend(answer: Option<string>)
      requires Valid()
      modifies this
      ensures Valid()
      ensures messages == old(messages) + [Reply(answer)]
      ensures !isLoading && input == old(input)
    {
      match answer {
        case Some(text) =>
          messages := messages + [Message(Assistant, text)];
        case None =>
          messages := messages + [Message(Assistant, ApologyText)];
      }
      isLoading := false;
    }

    /** `handleClear`: the conversation is emptied. */
    method Clear()
      requires Valid()
      modifies this
      ensures Valid()
      ensures messages == [] && input == old(input) && isLoading == old(isLoading)
    {
      messages := [];
    }
  }
}
