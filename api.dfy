/**
 * What the four route handlers under app/api share: the reply of the external
 * generative model, the JSON bodies they answer with, and the HTTP status.
 */
module Api {
  import opened JsText

  /** One call to the external model: its text, or any rejection or throw on the way. */
  datatype ModelReply = Generated(text: string) | ModelFailure

  /** The JSON objects the handlers return. */
  datatype Body =
    | MessageBody(message: string)
    | CodeBody(code: string)
    | TranslationBody(translation: string)
    | ImageBody(success: bool, description: string, imageUrl: string)
    | ErrorBody(error: string)

  datatype Response = Response(body: Body, status: int)

  const OkStatus: int := 200
  const ServerErrorStatus: int := 500

  /** `Response.json(body)`: default status. */
  function Success(body: Body): (r: Response)
    requires !body.ErrorBody?
    ensures r.status == OkStatus && r.body == body
  {
    Response(body, OkStatus)
  }

  /** `Response.json({ error }, { status: 500 })`. */
  function Failure(error: string): (r: Response)
    ensures r.status == ServerErrorStatus && r.body == ErrorBody(error)
  {
    Response(ErrorBody(error), ServerErrorStatus)
  }

  /** A handler's answer together with the prompt it gave the model, if it called it. */
  datatype Handled<+P> = Handled(response: Response, call: Option<P>)

  /** A string field of the parsed request as a template literal renders it: an absent field reads "undefined". */
  function Interpolated(field: Option<string>): (s: string)
    ensures field.Some? ==> s == field.value
    ensures field.None? ==> s == "undefined"
  {
    match field
    case Some(v) => v
    case None => "undefined"
  }
}
