/**
 * The `POST` handler of app/api/code-assistant/route.ts: a system prompt
 * naming the requested programming language, followed by the user's request,
 * answered as `{ code }` or the fixed error.
 */
module CodeAssistantApi {
  import opened JsText
  import opened Api

  /** The parsed request body; either field may be absent. */
  datatype CodeRequest = CodeRequest(prompt: Option<string>, language: Option<string>)

  const CodeError: string := "Failed to generate code"
  const SystemLead: string := "You are an expert code assistant. Generate clean, well-commented "
  const SystemTail: string :=
    " code based on the user's request. Provide only the code with brief comments, no additional explanations."
  const RequestSeparator: string := "\n\nUser request: "

  /** The fixed instruction with the requested language in its one slot. */
  function SystemPrompt(language: string): (s: string)
    ensures |s| == |SystemLead| + |language| + |SystemTail|
    ensures s[..|SystemLead|] == SystemLead && s[|s| - |SystemTail|..] == SystemTail
    ensures s[|SystemLead|..|SystemLead| + |language|] == language
  {
    SystemLead + language + SystemTail
  }

  /** What the model receives: the system prompt, the separator, then the user's request unmodified. */
  function CombinedPrompt(language: string, prompt: string): (p: string)
    ensures |p| == |SystemPrompt(language)| + |RequestSeparator| + |prompt|
    ensures p[..|SystemPrompt(language)|] == SystemPrompt(language)
    ensures p[|SystemPrompt(language)|..|p| - |prompt|] == RequestSeparator
    ensures p[|p| - |prompt|..] == prompt
  {
    SystemPrompt(language) + RequestSeparator + prompt
  }

  /** For one language, distinct requests give distinct prompts. */
  lemma CombinedPromptInjective(language: string, p1: string, p2: string)
    requires CombinedPrompt(language, p1) == CombinedPrompt(language, p2)
    ensures p1 == p2
  {
    var c := CombinedPrompt(language, p1);
    assert p1 == c[|c| - |p1|..];
  }

  /** `POST /api/code-assistant`: model text as `{ code }`, every failure as the one error with status 500. */
  function Post(body: Option<CodeRequest>, model: string -> ModelReply): (r: Handled<string>)
    ensures body.None? ==> r == Handled(Failure(CodeError), None)
    ensures body.Some? ==>
              r.call == Some(CombinedPrompt(Interpolated(body.value.language), Interpolated(body.value.prompt)))
    ensures r.call.Some? && model(r.call.value).Generated? ==>
              r.response == Success(CodeBody(model(r.call.value).text))
    ensures r.call.Some? && model(r.call.value).ModelFailure? ==> r.response == Failure(CodeError)
  {
    match body
    case None => Handled(Failure(CodeError), None)
    case Some(req) =>
      var prompt := CombinedPrompt(Interpolated(req.language), Interpolated(req.prompt));
      match model(prompt)
      case Generated(code) => Handled(Success(CodeBody(code)), Some(prompt))
      case ModelFailure => Handled(Failure(CodeError), Some(prompt))
  }

  /**
   * Every answer is either a 200 success body or `{ error }` with status 500,
   * and the only error this route ever reports is its fixed message.
   */
  lemma StatusMatchesBody(body: Option<CodeRequest>, model: string -> ModelReply)
    ensures var r := Post(body, model).response;
      && (r.status == OkStatus || r.status == ServerErrorStatus)
      && (r.status == ServerErrorStatus <==> r.body.ErrorBody?)
      && (r.body.ErrorBody? ==> r.body.error == CodeError)
  {
  }
}
