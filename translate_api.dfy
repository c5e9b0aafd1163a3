/**
 * The `POST` handler of app/api/translate/route.ts: one instruction prompt
 * around the source text, answered as `{ translation }` or the fixed error.
 */
module TranslateApi {
  import opened JsText
  import opened Api

  /** The parsed request body; either field may be absent. */
  datatype TranslateRequest = TranslateRequest(text: Option<string>, targetLanguage: Option<string>)

  const TranslateError: string := "Failed to translate"
  const Lead: string := "Translate the following text to "
  const Instruction: string := ". Only provide the translation, no explanations:\n\n"

  /** The prompt names the target language right after the fixed lead and ends with the source text, unmodified. */
  function Prompt(text: string, targetLanguage: string): (p: string)
    ensures |p| == |Lead| + |targetLanguage| + |Instruction| + |text|
    ensures p[..|Lead|] == Lead
    ensures p[|Lead|..|Lead| + |targetLanguage|] == targetLanguage
    ensures p[|Lead| + |targetLanguage|..|p| - |text|] == Instruction
    ensures p[|p| - |text|..] == text
  {
    Lead + targetLanguage + Instruction + text
  }

  /** Two prompts for the same target language are equal only when the texts are. */
  lemma PromptInjective(t1: string, t2: string, targetLanguage: string)
    requires Prompt(t1, targetLanguage) == Prompt(t2, targetLanguage)
    ensures t1 == t2
  {
    var p := Prompt(t1, targetLanguage);
    assert t1 == p[|p| - |t1|..];
  }

  /** `POST /api/translate`: model text as `{ translation }`, every failure as the one error with status 500. */
  function Post(body: Option<TranslateRequest>, model: string -> ModelReply): (r: Handled<string>)
    ensures body.None? ==> r == Handled(Failure(TranslateError), None)
    ensures body.Some? ==>
              r.call == Some(Prompt(Interpolated(body.value.text), Interpolated(body.value.targetLanguage)))
    ensures r.call.Some? && model(r.call.value).Generated? ==>
              r.response == Success(TranslationBody(model(r.call.value).text))
    ensures r.call.Some? && model(r.call.value).ModelFailure? ==> r.response == Failure(TranslateError)
  {
    match body
    case None => Handled(Failure(TranslateError), None)
    case Some(req) =>
      var prompt := Prompt(Interpolated(req.text), Interpolated(req.targetLanguage));
      match model(prompt)
      case Generated(translation) => Handled(Success(TranslationBody(translation)), Some(prompt))
      case ModelFailure => Handled(Failure(TranslateError), Some(prompt))
  }

  /**
   * Every answer is either a 200 success body or `{ error }` with status 500,
   * and the only error this route ever reports is its fixed message.
   */
  lemma StatusMatchesBody(body: Option<TranslateRequest>, model: string -> ModelReply)
    ensures var r := Post(body, model).response;
      && (r.status == OkStatus || r.status == ServerErrorStatus)
      && (r.status == ServerErrorStatus <==> r.body.ErrorBody?)
      && (r.body.ErrorBody? ==> r.body.error == TranslateError)
  {
  }
}
