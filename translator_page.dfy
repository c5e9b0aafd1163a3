/**
 * The controller of app/translator/page.tsx: source and translated text,
 * the two language choices and the in-flight flag. `handleTranslate` is split
 * into `BeginTranslate` and `CompleteTranslate` at its request.
 */
module Translator {
  import opened JsText
  import opened Api
  import TranslateApi

  /** Shown in the result box when the request fails in any way. */
  const FailureText: string := "Translation failed. " + "Please make sure the Google API key is configured."

  /** The four fields the swap button exchanges. */
  datatype Fields = Fields(sourceText: string, translatedText: string, sourceLanguage: string, targetLanguage: string)

  /** `handleSwapLanguages`: languages trade places and so do the two texts. */
  function Swapped(f: Fields): (g: Fields)
    ensures g.sourceLanguage == f.targetLanguage && g.targetLanguage == f.sourceLanguage
    ensures g.sourceText == f.translatedText && g.translatedText == f.sourceText
  {
    Fields(f.translatedText, f.sourceText, f.targetLanguage, f.sourceLanguage)
  }

  /** Swapping twice restores all four fields. */
  lemma SwapInvolution(f: Fields)
    ensures Swapped(Swapped(f)) == f
  {
  }

  /** What the page takes from the route's response: the `translation` of a success, nothing when `data.error` is set. */
  function AnswerOf(r: Response): (a: Option<string>)
    ensures a.Some? <==> r.body.TranslationBody?
    ensures a.Some? ==> a.value == r.body.translation
  {
    match r.body
    case TranslationBody(t) => Some(t)
    case _ => None
  }

  /** The text shown once the request settles. */
  function ResultText(answer: Option<string>): (s: string)
    ensures answer.Some? ==> s == answer.value
    ensures answer.None? ==> s == FailureText
  {
    match answer
    case Some(t) => t
    case None => FailureText
  }

  /** From the page to the model and back: the model is asked to translate the untrimmed text, and the page shows its answer or the failure text. */
  lemma TranslateRoundTrip(sourceText: string, targetLanguage: string, model: string -> ModelReply)
    ensures var h := TranslateApi.Post(Some(TranslateApi.TranslateRequest(Some(sourceText), Some(targetLanguage))), model);
      && h.call == Some(TranslateApi.Prompt(sourceText, targetLanguage))
      && ResultText(AnswerOf(h.response))
         == match model(h.call.value) case Generated(t) => t case ModelFailure => FailureText
  {
  }

  class TranslatorPage {
    var sourceText: string
    var translatedText: string
    var sourceLanguage: string
    var targetLanguage: string
    var isTranslating: bool

    ghost function View(): Fields
      reads this
    {
      Fields(sourceText, translatedText, sourceLanguage, targetLanguage)
    }

    constructor ()
      ensures View() == Fields("", "", "English", "Arabic") && !isTranslating
    {
      sourceText := "";
      translatedText := "";
      sourceLanguage := "English";
      targetLanguage := "Arabic";
      isTranslating := false;
    }

    /** The translate button: disabled for a blank source or while a translation is in flight. */
    function CanTranslate(): (enabled: bool)
      reads this
      ensures enabled <==> !IsBlank(sourceText) && !isTranslating
    {
      Trim(sourceText) != [] && !isTranslating
    }

    /**
     * `handleTranslate` up to the request. A blank source changes nothing; otherwise
     * the page starts translating and posts the untrimmed source text with the
     * current target language.
     */
    method BeginTranslate() returns (req: Option<TranslateApi.TranslateRequest>)
      modifies this
      ensures IsBlank(old(sourceText)) ==> req.None? && unchanged(this)
      ensures !IsBlank(old(sourceText)) ==>
                && req == Some(TranslateApi.TranslateRequest(Some(old(sourceText)), Some(old(targetLanguage))))
                && isTranslating && View() == old(View())
    {
      if TrimsToEmpty(sourceText) {
        return None;
      }
      isTranslating := true;
      req := Some(TranslateApi.TranslateRequest(Some(sourceText), Some(targetLanguage)));
    }

    /** The tail of `handleTranslate`: the answer or the failure text is shown, and translating stops. */
    method CompleteTranslate(answer: Option<string>)
      modifies this
      ensures translatedText == ResultText(answer) && !isTranslating
      ensures sourceText == old(sourceText) && sourceLanguage == old(sourceLanguage)
      ensures targetLanguage == old(targetLanguage)
    {
      match answer {
        case Some(t) => translatedText := t;
        case None => translatedText := FailureText;
      }
      isTranslating := false;
    }

    /** `handleSwapLanguages`: all four updates read the values from before the click. */
    method SwapLanguages()
      modifies this
      ensures View() == Swapped(old(View())) && isTranslating == old(isTranslating)
    {
      sourceLanguage, targetLanguage, sourceText, translatedText :=
        targetLanguage, sourceLanguage, translatedText, sourceText;
    }
  }
}
