/**
 * The `POST` handler of app/api/image-generator/route.ts: after the body is
 * parsed it checks for the model credential, asks the model for a vivid
 * description of the prompt, and answers with that description and a
 * placeholder image locator built from the encoded prompt.
 */
module ImageGeneratorApi {
  import opened JsText
  import opened Api

  /** The parsed request body; the prompt may be absent. */
  datatype ImageRequest = ImageRequest(prompt: Option<string>)

  const KeyMissingError: string := "API key not configured. " + "Please add GOOGLE_API_KEY to environment variables."
  const ImageError: string := "Failed to generate image description"
  const PlaceholderPrefix: string := "/placeholder.svg?height=512&width=512&query="
  const EnhanceIntro: string := "Create a detailed, vivid description for an AI image generator based on this request: "
  const EnhanceOutro: string := ". Include visual details, colors, lighting, composition, and style."

  /** `process.env.GOOGLE_API_KEY` is truthy: present and not empty. */
  predicate HasCredential(apiKey: Option<string>) {
    apiKey.Some? && apiKey.value != ""
  }

  /** The placeholder locator: the fixed path and query, then the encoded prompt. */
  function PlaceholderUrl(encode: string -> string, prompt: string): (u: string)
    ensures |u| == |PlaceholderPrefix| + |encode(prompt)|
    ensures u[..|PlaceholderPrefix|] == PlaceholderPrefix
    ensures u[|PlaceholderPrefix|..] == encode(prompt)
  {
    PlaceholderPrefix + encode(prompt)
  }

  /** The user's prompt sits verbatim between double quotes inside the fixed template. */
  function EnhancedPrompt(prompt: string): (p: string)
    ensures |p| == |EnhanceIntro| + 1 + |prompt| + 1 + |EnhanceOutro|
    ensures p[..|EnhanceIntro|] == EnhanceIntro
    ensures p[|EnhanceIntro|] == '"' && p[|EnhanceIntro| + 1 + |prompt|] == '"'
    ensures p[|EnhanceIntro| + 1..|EnhanceIntro| + 1 + |prompt|] == prompt
    ensures p[|p| - |EnhanceOutro|..] == EnhanceOutro
  {
    EnhanceIntro + "\"" + prompt + "\"" + EnhanceOutro
  }

  /**
   * `POST /api/image-generator`. The body is parsed first, so a malformed body gives
   * the generic error even without a credential; a missing credential gives its own
   * error and the model is never called; otherwise the model's description comes
   * back with the placeholder locator.
   */
  function Post(body: Option<ImageRequest>, apiKey: Option<string>, model: string -> ModelReply,
                encode: string -> string): (r: Handled<string>)
    ensures body.None? ==> r == Handled(Failure(ImageError), None)
    ensures body.Some? && !HasCredential(apiKey) ==> r == Handled(Failure(KeyMissingError), None)
    ensures r.call.Some? <==> body.Some? && HasCredential(apiKey)
    ensures r.call.Some? ==> r.call.value == EnhancedPrompt(Interpolated(body.value.prompt))
    ensures r.call.Some? && model(r.call.value).Generated? ==>
              r.response == Success(ImageBody(true, model(r.call.value).text,
                                              PlaceholderUrl(encode, Interpolated(body.value.prompt))))
    ensures r.call.Some? && model(r.call.value).ModelFailure? ==> r.response == Failure(ImageError)
  {
    match body
    case None => Handled(Failure(ImageError), None)
    case Some(req) =>
      if !HasCredential(apiKey) then Handled(Failure(KeyMissingError), None)
      else
        var prompt := Interpolated(req.prompt);
        var enhanced := EnhancedPrompt(prompt);
        match model(enhanced)
        case Generated(description) =>
          Handled(Success(ImageBody(true, description, PlaceholderUrl(encode, prompt))), Some(enhanced))
        case ModelFailure => Handled(Failure(ImageError), Some(enhanced))
  }

  /** The configuration error is told apart from a provider failure. */
  lemma MissingKeyIsDistinct(req: ImageRequest, m1: string -> ModelReply, m2: string -> ModelReply,
                             encode: string -> string)
    requires forall p :: m2(p) == ModelFailure
    ensures Post(Some(req), None, m1, encode).response.body.error
         != Post(Some(req), Some("key"), m2, encode).response.body.error
  {
    assert KeyMissingError[0] == 'A';
  }

  /**
   * Every answer is either a 200 success body or `{ error }` with status 500;
   * the error is the missing-key message exactly when a parsed body meets a
   * missing credential, and the generic message otherwise.
   */
  lemma StatusMatchesBody(body: Option<ImageRequest>, apiKey: Option<string>, model: string -> ModelReply,
                          encode: string -> string)
    ensures var r := Post(body, apiKey, model, encode).response;
      && (r.status == OkStatus || r.status == ServerErrorStatus)
      && (r.status == ServerErrorStatus <==> r.body.ErrorBody?)
      && (r.body.ErrorBody? ==> r.body.error == KeyMissingError || r.body.error == ImageError)
      && (r.body.ErrorBody? && r.body.error == KeyMissingError <==> body.Some? && !HasCredential(apiKey))
  {
    assert KeyMissingError[0] == 'A' && ImageError[0] == 'F';
  }
}
