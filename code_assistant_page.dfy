/**
 * The controller of app/code-assistant/page.tsx: the request text, the chosen
 * programming language, the generated code and the loading flag.
 * `handleGenerate` is split into `BeginGenerate` and `CompleteGenerate` at
 * its request.
 */
module CodeAssistant {
  import opened JsText
  import opened Api
  import CodeAssistantApi

  /** Shown in place of code when the request fails in any way. */
  const FailureCode: string := "// Sorry, code generation failed. " + "Please make sure the Google API key is configured."

  /** What the page takes from the route's response: the `code` of a success, nothing when `data.error` is set. */
  function AnswerOf(r: Response): (a: Option<string>)
    ensures a.Some? <==> r.body.CodeBody?
    ensures a.Some? ==> a.value == r.body.code
  {
    match r.body
    case CodeBody(c) => Some(c)
    case _ => None
  }

  /** The code shown once the request settles. */
  function ResultCode(answer: Option<string>): (s: string)
    ensures answer.Some? ==> s == answer.value
    ensures answer.None? ==> s == FailureCode
  {
    match answer
    case Some(c) => c
    case None => FailureCode
  }

  /** From the page to the model and back: the model gets the prompt after the language's system prompt, and the page shows its code or the failure comment. */
  lemma GenerateRoundTrip(prompt: string, language: string, model: string -> ModelReply)
    ensures var h := CodeAssistantApi.Post(Some(CodeAssistantApi.CodeRequest(Some(prompt), Some(language))), model);
      && h.call == Some(CodeAssistantApi.CombinedPrompt(language, prompt))
      && ResultCode(AnswerOf(h.response))
         == match model(h.call.value) case Generated(c) => c case ModelFailure => FailureCode
  {
  }

  class CodeAssistantPage {
    var prompt: string
    var language: string
    var generatedCode: string
    var isLoading: bool

    constructor ()
      ensures prompt == "" && language == "JavaScript" && generatedCode == "" && !isLoading
    {
      prompt := "";
      language := "JavaScript";
      generatedCode := "";
      isLoading := false;
    }

    /** The generate button: disabled for a blank prompt or while loading. */
    function CanGenerate(): (enabled: bool)
      reads this
      ensures enabled <==> !IsBlank(prompt) && !isLoading
    {
      Trim(prompt) != [] && !isLoading
    }

    /**
     * `handleGenerate` up to the request. A blank prompt changes nothing; otherwise
     * loading starts and the request carries the prompt and language as they are.
     */
    method BeginGenerate() returns (req: Option<CodeAssistantApi.CodeRequest>)
      modifies this
      ensures IsBlank(old(prompt)) ==> req.None? && unchanged(this)
      ensures !IsBlank(old(prompt)) ==>
                && req == Some(CodeAssistantApi.CodeRequest(Some(old(prompt)), Some(old(language))))
                && isLoading
                && prompt == old(prompt) && language == old(language) && generatedCode == old(generatedCode)
    {
      if TrimsToEmpty(prompt) {
        return None;
      }
      isLoading := true;
      req := Some(CodeAssistantApi.CodeRequest(Some(prompt), Some(language)));
    }

    /** The tail of `handleGenerate`: the code or the failure comment is shown and loading stops. */
    method CompleteGenerate(answer: Option<string>)
      modifies this
      ensures generatedCode == ResultCode(answer) && !isLoading
      ensures prompt == old(prompt) && language == old(language)
    {
      match answer {
        case Some(c) => generatedCode := c;
        case None => generatedCode := FailureCode;
      }
      isLoading := false;
    }

    /** `handleClear`: both the code and the prompt are emptied. */
    method Clear()
      modifies this
      ensures generatedCode == "" && prompt == ""
      ensures language == old(language) && isLoading == old(isLoading)
    {
      generatedCode := "";
      prompt := "";
    }
  }
}
