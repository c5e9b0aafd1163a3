# AI Lab front-end: a Dafny model

This project models the logic of the AI Lab web front-end, a Next.js
application with six tools: chat, translator, code assistant, image
generator, voice-to-text and text-to-speech. It covers three parts.

- **The language preference store** (`LanguageContext`) and its header toggle
  (`LanguageSwitcher`). The store holds English or Arabic and keeps four
  observables in step: the language in memory, the `ai-lab-language` slot in
  local storage, and the document's `dir` and `lang`. Translation by key falls
  back to the key itself.
- **The four proxy routes** under `app/api` (`ChatApi`, `TranslateApi`,
  `CodeAssistantApi`, `ImageGeneratorApi`). Each one is a pure function from
  the parsed request body to the JSON response. Along with the response it
  returns the exact prompt handed to the generative model, so a test can see
  that the model was never called. The model is a function parameter
  returning `Generated(text)` or `ModelFailure`. `ModelFailure` stands for any
  rejection or throw inside the SDK. `Api` holds what the routes share.
- **The six page controllers**, one class per page, whose methods update the
  page's fields as the handlers do. Each asynchronous handler is split at its
  request into a `Begin…` method and a `Complete…` method:
  - `Begin…` runs the guard, sets the busy flag and returns the request body.
  - `Complete…` runs the `then`/`catch`/`finally` tail. It takes
    `Option<string>`: `Some` holds the field the page reads from a successful
    response, and `None` stands for every failing path (a fetch error, a
    parse error, or a set `data.error`).
  - `AnswerOf` turns a route's response into that `Option`.
  - The `…RoundTrip` lemmas connect a page's request, through the route, to
    what the page finally shows.

`JsText` models the `String.prototype.trim` behaviour that every guard uses.
It covers ECMAScript whitespace and line terminators, and proves that `trim`
keeps exactly the slice between a blank prefix and a blank suffix.

Browser and server facilities are reduced to parameters and call logs:
- `encodeURIComponent` is an `encode: string -> string` parameter.
- The `GOOGLE_API_KEY` environment variable is an `Option<string>` parameter.
- The speech engine's `paused` flag is a parameter of `TogglePlay`.
- The calls the pages make on the speech recogniser and on the speech engine
  are appended to a `calls` sequence.

## Model

| member | source | states |
|---|---|---|
| JsText.Trim | app/chat/page.tsx:20 | `trim` leaves no whitespace at either end, never lengthens, and gives "" exactly when the input is blank; whitespace (`IsWhitespace`) is the ECMAScript WhiteSpace and LineTerminator code points |
| JsText.TrimKeepsCharacters | app/chat/page.tsx:20 | every character `trim` keeps is the input's character at the same offset past the dropped lead |
| JsText.TrimDropsBlankLead | app/chat/page.tsx:20 | the leading part `trim` drops is all whitespace |
| JsText.TrimDropsBlankTail | app/chat/page.tsx:20 | the trailing part `trim` drops is all whitespace |
| JsText.TrimIsInnerSlice | app/chat/page.tsx:20 | `trim` returns the slice of the input between a blank prefix and a blank suffix |
| JsText.TrimsToEmpty | app/chat/page.tsx:18 | `!s.trim()` holds exactly when every character is whitespace |
| JsText.TrimFixesTrimmed | app/chat/page.tsx:20 | a string is its own trim iff neither end is whitespace; `trim` is idempotent |
| LanguageContext.Code | lib/language-context.tsx:28-30 | the stored tag is "en" or "ar", and "ar" exactly for Arabic |
| LanguageContext.Parse | lib/language-context.tsx:19 | only "en" and "ar" are recognised, and a recognised tag is its language's code |
| LanguageContext.Direction | lib/language-context.tsx:21 | the direction is "rtl" exactly for Arabic, and "ltr" for English |
| LanguageContext.Saved | lib/language-context.tsx:18-19 | a saved language exists iff the storage slot holds "en" or "ar", and it is the language of that tag |
| LanguageContext.Lookup | lib/language-context.tsx:34 | `t` gives the table entry when it is present and non-empty, otherwise the key; both cases |
| LanguageContext.UseLanguage | lib/language-context.tsx:40-45 | outside a provider it throws the fixed message; inside, it returns the context unchanged |
| LanguageContext.Mounted | lib/language-context.tsx:15 | the store starts in English, with the storage and the document's `dir` and `lang` as found |
| LanguageContext.Restored | lib/language-context.tsx:17-24 | a recognised saved language is adopted with its direction and tag; otherwise nothing changes; storage is never written |
| LanguageContext.Applied | lib/language-context.tsx:26-31 | after `setLanguage(l)` the language, `dir` and `lang` all follow `l`, the slot holds `l`'s tag, and no other key is added or changed |
| LanguageContext.AppliedIdempotent | lib/language-context.tsx:26-31 | setting the same language twice equals setting it once |
| LanguageContext.AppliedForgetsPrior | lib/language-context.tsx:26-31 | the state after `setLanguage(l)` does not depend on the prior language or document attributes |
| LanguageContext.ReloadRestores | lib/language-context.tsx:15-31 | after `setLanguage(l)`, a fresh mount's start-up effect restores `l` with its direction and tag |
| LanguageContext.LookupComplete | lib/language-context.tsx:33-35 | a key with a non-empty entry in both languages never falls back to the key |
| LanguageContext.LanguageStore.constructor | lib/language-context.tsx:15 | mounting starts in English with storage and document as given |
| LanguageContext.LanguageStore.RestoreSaved | lib/language-context.tsx:17-24 | the start-up effect moves the store to `Restored` of its prior state |
| LanguageContext.LanguageStore.SetLanguage | lib/language-context.tsx:26-31 | `setLanguage` moves the store to `Applied` of its prior state |
| LanguageContext.LanguageStore.T | lib/language-context.tsx:33-35 | `t(key)` is the current language's non-empty entry, or else the key |
| LanguageSwitcher.Toggled | components/language-switcher.tsx:11 | a click always selects the other language |
| LanguageSwitcher.NativeName | components/language-switcher.tsx:13 | the name is "English" exactly for English; the other label is Arabic's own name |
| LanguageSwitcher.Label | components/language-switcher.tsx:13 | the label is the native name of the language a click switches to |
| LanguageSwitcher.ToggledInvolution | components/language-switcher.tsx:11 | toggling twice gives the original language |
| LanguageSwitcher.TwoClicksRestore | components/language-switcher.tsx:11 | two clicks restore the language, direction, document tag and saved language |
| LanguageSwitcher.Click | components/language-switcher.tsx:11 | a click applies the toggled language through the store |
| ChatApi.ModelRole | app/api/chat/route.ts:15 | "assistant" becomes "model", and every other role becomes "user"; both directions |
| ChatApi.ToModelHistory | app/api/chat/route.ts:14-17 | the mapped history has the same length and order; entry i (through `ToContent`) has entry i's mapped role and its content as the only part |
| ChatApi.StartHistory | app/api/chat/route.ts:13-17 | a missing or null history starts an empty chat; a present one keeps its length |
| ChatApi.ModelHistoryRoundTrip | app/api/chat/route.ts:14-17 | for client roles, the client history is recovered from what the model receives: nothing is dropped, reordered or altered |
| ChatApi.Post | app/api/chat/route.ts:5-29 | an unparsable body never reaches the model; otherwise the model gets the mapped history and the message; its text is `{ message }`, and any failure is the fixed error with 500 |
| ChatApi.StatusMatchesBody | app/api/chat/route.ts:24-27 | every answer is a 200 success or `{ error }` with status 500, status 500 exactly for an error body, and the only error is "Failed to generate response" |
| TranslateApi.Prompt | app/api/translate/route.ts:11 | the prompt is the fixed lead, the target language, the fixed instruction, then the source text unmodified |
| TranslateApi.PromptInjective | app/api/translate/route.ts:11 | for one target language, equal prompts come only from equal texts |
| TranslateApi.Post | app/api/translate/route.ts:5-22 | the model gets the prompt of the body's fields, an absent field rendered "undefined" (`Interpolated`); its text is `{ translation }`, and any failure is the fixed error with 500 |
| TranslateApi.StatusMatchesBody | app/api/translate/route.ts:17-20 | every answer is a 200 success or `{ error }` with status 500, status 500 exactly for an error body, and the only error is "Failed to translate" |
| CodeAssistantApi.SystemPrompt | app/api/code-assistant/route.ts:9 | the requested language sits in the one slot of the fixed instruction |
| CodeAssistantApi.CombinedPrompt | app/api/code-assistant/route.ts:11 | the model input is the system prompt, the separator, then the user's request unmodified |
| CodeAssistantApi.CombinedPromptInjective | app/api/code-assistant/route.ts:11 | for one language, equal model inputs come only from equal requests |
| CodeAssistantApi.Post | app/api/code-assistant/route.ts:5-22 | the model gets the combined prompt of the body's fields, an absent field rendered "undefined"; its text is `{ code }`, and any failure is the fixed error with 500 |
| CodeAssistantApi.StatusMatchesBody | app/api/code-assistant/route.ts:17-20 | every answer is a 200 success or `{ error }` with status 500, status 500 exactly for an error body, and the only error is "Failed to generate code" |
| ImageGeneratorApi.PlaceholderUrl | app/api/image-generator/route.ts:29 | the locator is the fixed placeholder path and query followed by the encoded prompt |
| ImageGeneratorApi.EnhancedPrompt | app/api/image-generator/route.ts:19 | the prompt sits verbatim between double quotes, after the fixed intro and before the fixed outro |
| ImageGeneratorApi.Post | app/api/image-generator/route.ts:5-35 | parse errors come first and give the generic error; a missing or empty key (`HasCredential` fails) gives its own error without calling the model; the model is called iff the body parses and the key is set; success carries `success: true`, the description and the locator |
| ImageGeneratorApi.StatusMatchesBody | app/api/image-generator/route.ts:9-33 | every answer is a 200 success or `{ error }` with status 500, status 500 exactly for an error body; the error is the missing-key message exactly when a parsed body meets a missing credential, otherwise the generic one |
| ImageGeneratorApi.MissingKeyIsDistinct | app/api/image-generator/route.ts:9-14 | the missing-key error differs from the provider-failure error |
| Chat.WireRole | app/chat/page.tsx:12 | a page role is sent as "user" or "assistant", "assistant" exactly for assistant turns, so the chat route maps exactly those to "model" |
| Chat.ToWire | app/chat/page.tsx:29-32 | the serialised history keeps length, order, roles and contents |
| Chat.AnswerOf | app/chat/page.tsx:35-45 | the page gets an answer iff the response is a `{ message }` success, and then it is that message |
| Chat.Reply | app/chat/page.tsx:41-61 | the appended turn is the assistant's: the answer when there is one, otherwise the fixed apology |
| Chat.SendRoundTrip | app/chat/page.tsx:17-64 | for the body the page posts (`Wire`: the message and the serialised history), the model receives the message and a history that maps back to the page's history; the page then shows the model's text, or the apology |
| Chat.ChatPage.constructor | app/chat/page.tsx:12-14 | the page starts empty, with no input, and not loading |
| Chat.ChatPage.CanSend | app/chat/page.tsx:159 | the send button is enabled iff the input is not blank and nothing is loading |
| Chat.ChatPage.BeginSend | app/chat/page.tsx:17-33 | blank input changes nothing and sends nothing; otherwise the input clears, exactly one trimmed user turn is appended, loading starts, and the request carries the history from before the append; user turns stay non-empty and trimmed |
| Chat.ChatPage.CompleteSend | app/chat/page.tsx:35-64 | exactly one `Reply` is appended after the current messages, and loading stops on every path |
| Chat.ChatPage.Clear | app/chat/page.tsx:67-68 | the message list is emptied and nothing else changes |
| Translator.Swapped | app/translator/page.tsx:82-86 | the languages trade places, and so do the two texts |
| Translator.SwapInvolution | app/translator/page.tsx:82-86 | swapping twice restores all four fields |
| Translator.AnswerOf | app/translator/page.tsx:58-64 | the page gets an answer iff the response is a `{ translation }` success, and then it is that translation |
| Translator.ResultText | app/translator/page.tsx:64-76 | the result shown is the translation, or the fixed failure text |
| Translator.TranslateRoundTrip | app/translator/page.tsx:49-76 | the model gets the prompt for the untrimmed source and target language; the page shows the model's text, or the failure text |
| Translator.TranslatorPage.constructor | app/translator/page.tsx:12-16 | empty texts, English to Arabic, not translating |
| Translator.TranslatorPage.CanTranslate | app/translator/page.tsx:194 | the button is enabled iff the source is not blank and no translation is in flight |
| Translator.TranslatorPage.BeginTranslate | app/translator/page.tsx:37-56 | blank source changes nothing; otherwise translating starts and the request carries the untrimmed source and the current target language |
| Translator.TranslatorPage.CompleteTranslate | app/translator/page.tsx:58-79 | the result is the answer or the failure text; translating stops on every path; the other fields are kept |
| Translator.TranslatorPage.SwapLanguages | app/translator/page.tsx:82-86 | all four fields move to `Swapped` of their values before the click |
| CodeAssistant.AnswerOf | app/code-assistant/page.tsx:39-45 | the page gets an answer iff the response is a `{ code }` success, and then it is that code |
| CodeAssistant.ResultCode | app/code-assistant/page.tsx:45-57 | the code shown is the answer, or the fixed failure comment |
| CodeAssistant.GenerateRoundTrip | app/code-assistant/page.tsx:30-57 | the model gets the combined prompt for the page's language and prompt; the page shows the model's code, or the failure comment |
| CodeAssistant.CodeAssistantPage.constructor | app/code-assistant/page.tsx:12-15 | empty prompt and code, JavaScript, not loading |
| CodeAssistant.CodeAssistantPage.CanGenerate | app/code-assistant/page.tsx:144 | the button is enabled iff the prompt is not blank and nothing is loading |
| CodeAssistant.CodeAssistantPage.BeginGenerate | app/code-assistant/page.tsx:18-37 | blank prompt changes nothing; otherwise loading starts and the request carries the prompt and language as they are |
| CodeAssistant.CodeAssistantPage.CompleteGenerate | app/code-assistant/page.tsx:39-60 | the code shown is the answer or the failure comment; loading stops on every path |
| CodeAssistant.CodeAssistantPage.Clear | app/code-assistant/page.tsx:71-73 | both the code and the prompt become empty |
| VoiceToText.FinalTextAppend | app/voice-to-text/page.tsx:35-42 | the final text of a concatenation is the concatenation of the final texts |
| VoiceToText.FinalTextEmptyIff | app/voice-to-text/page.tsx:37-42 | the appended text is empty iff no visited result is final, so interim results never change the transcript |
| VoiceToText.FinalTextLength | app/voice-to-text/page.tsx:37-38 | each final result contributes at least its trailing space |
| VoiceToText.CollectResults | app/voice-to-text/page.tsx:32-42 | the loop visits the results from `resultIndex` on (none when it is past the end, `Window`); its two accumulators are `FinalText` (each final transcript followed by a space, in order) and `InterimText` (the other transcripts run together) of that window |
| VoiceToText.VoiceToTextPage.constructor | app/voice-to-text/page.tsx:12-15 | not recording, empty transcript, no recogniser calls |
| VoiceToText.VoiceToTextPage.OnResult | app/voice-to-text/page.tsx:31-45 | the transcript grows by exactly the final text of the window; the old transcript stays a prefix |
| VoiceToText.VoiceToTextPage.OnError | app/voice-to-text/page.tsx:47-49 | recording stops and the transcript is kept |
| VoiceToText.VoiceToTextPage.ToggleRecording | app/voice-to-text/page.tsx:67-79 | the flag flips; the recogniser, if present, is started when the flag was off and stopped when it was on |
| VoiceToText.VoiceToTextPage.Clear | app/voice-to-text/page.tsx:103-104 | the transcript becomes empty |
| ImageGenerator.ImageGeneratorPage.constructor | app/image-generator/page.tsx:12-14 | empty prompt, not generating, no image |
| ImageGenerator.ImageGeneratorPage.CanGenerate | app/image-generator/page.tsx:105 | the button is enabled iff the prompt is not blank and nothing is generating |
| ImageGenerator.ImageGeneratorPage.BeginGenerate | app/image-generator/page.tsx:17-34 | blank prompt changes nothing and sets no timer; otherwise generating starts and the timer captures the prompt |
| ImageGenerator.ImageGeneratorPage.CompleteGenerate | app/image-generator/page.tsx:34-36 | the image becomes the placeholder locator of the captured prompt, and generating stops |
| ImageGenerator.ImageGeneratorPage.Download | app/image-generator/page.tsx:44-48 | there is no link iff there is no image; a link targets the shown placeholder image |
| ImageGenerator.ImageGeneratorPage.Regenerate | app/image-generator/page.tsx:58-61 | the image is cleared, then generation begins as `handleGenerate` does; a blank prompt leaves no image |
| ImageGenerator.SameLocatorAsRoute | app/image-generator/page.tsx:35 | the page shows the same locator the image route returns for the same prompt |
| TextToSpeech.FindByName | app/text-to-speech/page.tsx:111 | `find` gives the first voice with the name, and none iff no voice has it |
| TextToSpeech.TextToSpeechPage.constructor | app/text-to-speech/page.tsx:12-16 | empty text, not playing, no voices, no selection, no utterance |
| TextToSpeech.TextToSpeechPage.LoadVoices | app/text-to-speech/page.tsx:21-26 | the list is replaced; the first voice is selected when there is one, and otherwise the selection is kept |
| TextToSpeech.TextToSpeechPage.SelectVoice | app/text-to-speech/page.tsx:110-113 | a listed name selects its first voice; an unlisted one changes nothing |
| TextToSpeech.TextToSpeechPage.TogglePlay | app/text-to-speech/page.tsx:34-72 | blank text changes nothing. While playing: pause. Paused with an utterance: resume, no new utterance. Otherwise: speak a new utterance of the text with the selected voice. |
| TextToSpeech.TextToSpeechPage.Stop | app/text-to-speech/page.tsx:74-77 | the engine is cancelled and playing stops |
| TextToSpeech.TextToSpeechPage.OnUtteranceSettled | app/text-to-speech/page.tsx:56-60 | an utterance's end or error stops playing and changes nothing else |

## Left out

- Rendering (JSX, styling, icons), the home page, the layout and the mobile navigation have no state logic to model.
- The generative model SDK is a function parameter. Its construction from the key at module load, the model name, the chat session object and nondeterminism are not modelled. Every rejection or throw inside it is one `ModelFailure`.
- `fetch`, JSON serialisation and parsing are replaced by structured values. A body that is not JSON is `None`. Fields of the wrong JSON type (a non-array `history`, a non-string `text`) are not modelled, and neither are their throws.
- ChatApi.ChatRequest: the `message` field is taken to be present. An absent message would reach the SDK, and the SDK's reaction to that is not modelled.
- Each page's `Complete…` treats every response the page does not accept as `None`. A `data.error` that is present but empty, which the page would read as a success, is not modelled.
- Toasts, `console.error`, clipboard writes and the transcript file download are outputs with no effect on page state.
- The image download's file name depends on the clock (`Date.now()`). Only the link target is modelled.
- Field edits made by typing or selecting (`onChange`, the example-prompt buttons, the language pickers) are plain assignments to one field. They are not separate members.
- The 2-second timer of the image page is the split between `BeginGenerate` and `CompleteGenerate`. The page passes the captured prompt on.
- Each speech result is reduced to its first alternative's transcript and its `isFinal` flag. The recogniser's settings (`continuous`, `interimResults`, `lang`) and the cleanup `stop` on unmount are not modelled.
- The text-to-speech engine is reduced to its `paused` flag and a log of the calls made on it. What the browser does with pause, resume, speak and cancel is not modelled.
- The contents of lib/translations are a table parameter. lib/translations is not part of this model.
- Strings are sequences of Unicode scalar values, so a JavaScript string holding a lone surrogate cannot be represented. On such a prompt `encodeURIComponent` throws `URIError`, in the image route and in the image page's timer callback; the `encode` parameter does not capture that throw.
- React batches state updates asynchronously. Each handler is modelled as sequential updates, with functional updaters applied to the latest state.
