/**
 * The `POST` handler of app/api/chat/route.ts: it turns the client's
 * conversation history into the model's turn format, sends the new message
 * in that chat, and answers `{ message }` or the fixed error.
 */
module ChatApi {
  import opened JsText
  import opened Api

  /** A history entry as the client sends it; the role is whatever string arrived. */
  datatype HistoryEntry = HistoryEntry(role: string, content: string)

  /** The model's turn format: a role and its text parts. */
  datatype Part = Part(text: string)
  datatype Content = Content(role: string, parts: seq<Part>)

  /** The parsed request body; `history` may be missing or null. */
  datatype ChatRequest = ChatRequest(message: string, history: Option<seq<HistoryEntry>>)

  /** What the handler hands the model: the chat's history and the message sent in it. */
  datatype ChatCall = ChatCall(history: seq<Content>, message: string)

  const ChatError: string := "Failed to generate response"

  /** `"assistant"` becomes the model's turn; any other role becomes the user's. */
  function ModelRole(role: string): (r: string)
    ensures r == "model" <==> role == "assistant"
    ensures r == "user" <==> role != "assistant"
  {
    if role == "assistant" then "model" else "user"
  }

  function ToContent(e: HistoryEntry): Content {
    Content(ModelRole(e.role), [Part(e.content)])
  }

  /** `history.map(...)`: one turn per entry, in the same order, each holding the entry's text as its only part. */
  function ToModelHistory(h: seq<HistoryEntry>): (r: seq<Content>)
    ensures |r| == |h|
    ensures forall i :: 0 <= i < |h| ==> r[i].role == ModelRole(h[i].role) && r[i].parts == [Part(h[i].content)]
  {
    if h == [] then [] else [ToContent(h[0])] + ToModelHistory(h[1..])
  }

  /** `history?.map(...) || []`: a missing or null history starts an empty chat. */
  function StartHistory(history: Option<seq<HistoryEntry>>): (r: seq<Content>)
    ensures history.None? ==> r == []
    ensures history.Some? ==> |r| == |history.value|
  {
    match history
    case None => []
    case Some(h) => ToModelHistory(h)
  }

  /** Reads a model turn back as a client entry; the inverse of the mapping on the client's two roles. */
  function FromModelHistory(cs: seq<Content>): (r: seq<HistoryEntry>)
    ensures |r| == |cs|
  {
    if cs == [] then []
    else
      var c := cs[0];
      [HistoryEntry(if c.role == "model" then "assistant" else "user", if c.parts == [] then "" else c.parts[0].text)]
        + FromModelHistory(cs[1..])
  }

  /** The roles the chat page ever sends. */
  predicate ClientRoles(h: seq<HistoryEntry>) {
    forall i :: 0 <= i < |h| ==> h[i].role == "user" || h[i].role == "assistant"
  }

  /** Nothing is dropped, reordered or altered: the client's history is recoverable from what the model receives. */
  lemma {:induction false} ModelHistoryRoundTrip(h: seq<HistoryEntry>)
    requires ClientRoles(h)
    ensures FromModelHistory(ToModelHistory(h)) == h
  {
    if h != [] {
      assert ClientRoles(h[1..]) by {
        forall i | 0 <= i < |h[1..]| ensures h[1..][i].role == "user" || h[1..][i].role == "assistant" {
          assert h[1..][i] == h[i + 1];
        }
      }
      ModelHistoryRoundTrip(h[1..]);
      assert ToModelHistory(h)[1..] == ToModelHistory(h[1..]);
    }
  }

  /**
   * `POST /api/chat`. A body that does not parse never reaches the model; otherwise
   * the model gets the mapped history and the message, and its text comes back as
   * `{ message }`; every failure collapses to the one error with status 500.
   */
  function Post(body: Option<ChatRequest>, model: ChatCall -> ModelReply): (r: Handled<ChatCall>)
    ensures body.None? ==> r == Handled(Failure(ChatError), None)
    ensures body.Some? ==> r.call == Some(ChatCall(StartHistory(body.value.history), body.value.message))
    ensures r.call.Some? && model(r.call.value).Generated? ==>
              r.response == Success(MessageBody(model(r.call.value).text))
    ensures r.call.Some? && model(r.call.value).ModelFailure? ==> r.response == Failure(ChatError)
  {
    match body
    case None => Handled(Failure(ChatError), None)
    case Some(req) =>
      var call := ChatCall(StartHistory(req.history), req.message);
      match model(call)
      case Generated(text) => Handled(Success(MessageBody(text)), Some(call))
      case ModelFailure => Handled(Failure(ChatError), Some(call))
  }

  /**
   * Every answer is either a 200 success body or `{ error }` with status 500,
   * and the only error this route ever reports is its fixed message.
   */
  lemma StatusMatchesBody(body: Option<ChatRequest>, model: ChatCall -> ModelReply)
    ensures var r := Post(body, model).response;
      && (r.status == OkStatus || r.status == ServerErrorStatus)
      && (r.status == ServerErrorStatus <==> r.body.ErrorBody?)
      && (r.body.ErrorBody? ==> r.body.error == ChatError)
  {
  }
}
