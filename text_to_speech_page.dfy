/**
 * The controller of app/text-to-speech/page.tsx: the text, the playing flag,
 * the voice list and selection, and the current utterance. The browser's
 * speech engine is reduced to the calls the page makes on it and to its
 * `paused` flag, which the page reads when toggling.
 */
module TextToSpeech {
  import opened JsText

  datatype Voice = Voice(name: string, lang: string)

  /** A `SpeechSynthesisUtterance`: the text to speak and the voice set on it, if any. */
  datatype Utterance = Utterance(text: string, voice: Option<Voice>)

  datatype EngineCall = Pause | Resume | Speak(utterance: Utterance) | Cancel

  /** `voices.find(v => v.name === name)`: the first voice with that name. */
  function FindByName(voices: seq<Voice>, name: string): (r: Option<Voice>)
    ensures r.None? <==> forall i :: 0 <= i < |voices| ==> voices[i].name != name
    ensures r.Some? ==> r.value in voices && r.value.name == name
    ensures forall k :: (0 <= k < |voices| && voices[k].name == name && forall j :: 0 <= j < k ==> voices[j].name != name)
                        ==> r == Some(voices[k])
  {
    if voices == [] then None
    else if voices[0].name == name then Some(voices[0])
    else
      assert forall k :: 1 <= k < |voices| ==> voices[k] == voices[1..][k - 1];
      FindByName(voices[1..], name)
  }

  class TextToSpeechPage {
    var text: string
    var isPlaying: bool
    var selectedVoice: Option<Voice>
    var voices: seq<Voice>
    /** `utteranceRef.current`. */
    var utterance: Option<Utterance>
    /** The calls made on `window.speechSynthesis`, oldest first. */
    var calls: seq<EngineCall>

    /** Playing implies an utterance exists, and every utterance was made from non-blank text. */
    ghost predicate Valid()
      reads this
    {
      && (isPlaying ==> utterance.Some?)
      && (utterance.Some? ==> !IsBlank(utterance.value.text))
    }

    constructor ()
      ensures Valid() && text == "" && !isPlaying && selectedVoice.None? && voices == []
      ensures utterance.None? && calls == []
    {
      text := "";
      isPlaying := false;
      selectedVoice := None;
      voices := [];
      utterance := None;
      calls := [];
    }

    /** `loadVoices`: the list is replaced; the first voice is selected when there is one. */
    method LoadVoices(available: seq<Voice>)
      requires Valid()
      modifies this
      ensures Valid()
      ensures voices == available
      ensures selectedVoice == if available != [] then Some(available[0]) else old(selectedVoice)
      ensures text == old(text) && isPlaying == old(isPlaying) && utterance == old(utterance) && calls == old(calls)
    {
      voices := available;
      if |available| > 0 {
        selectedVoice := Some(available[0]);
      }
    }

    /** The voice picker: a listed name selects the first voice with that name; any other name changes nothing. */
    method SelectVoice(name: string)
      requires Valid()
      modifies this
      ensures Valid()
      ensures selectedVoice == if FindByName(voices, name).Some? then FindByName(voices, name) else old(selectedVoice)
      ensures voices == old(voices) && text == old(text) && isPlaying == old(isPlaying)
      ensures utterance == old(utterance) && calls == old(calls)
    {
      var voice := FindByName(voices, name);
      if voice.Some? {
        selectedVoice := voice;
      }
    }

    /**
     * `handleTogglePlay`. Blank text changes nothing. While playing, the engine is
     * paused. Otherwise a paused engine with an utterance is resumed; failing that
     * a new utterance of the text, with the selected voice, is spoken.
     */
    method TogglePlay(enginePaused: bool)
      requires Valid()
      modifies this
      ensures Valid()
      ensures IsBlank(old(text)) ==> unchanged(this)
      ensures !IsBlank(old(text)) && old(isPlaying) ==>
                !isPlaying && calls == old(calls) + [Pause] && utterance == old(utterance)
      ensures !IsBlank(old(text)) && !old(isPlaying) && enginePaused && old(utterance).Some? ==>
                isPlaying && calls == old(calls) + [Resume] && utterance == old(utterance)
      ensures !IsBlank(old(text)) && !old(isPlaying) && !(enginePaused && old(utterance).Some?) ==>
                var u := Utterance(old(text), old(selectedVoice));
                isPlaying && utterance == Some(u) && calls == old(calls) + [Speak(u)]
      ensures text == old(text) && voices == old(voices) && selectedVoice == old(selectedVoice)
    {
      if TrimsToEmpty(text) {
        return;
      }
      if isPlaying {
        calls := calls + [Pause];
        isPlaying := false;
      } else {
        if enginePaused && utterance.Some? {
          calls := calls + [Resume];
          isPlaying := true;
        } else {
          var u := Utterance(text, selectedVoice);
          utterance := Some(u);
          calls := calls + [Speak(u)];
          isPlaying := true;
        }
      }
    }

    /** `handleStop`: the engine is cancelled and playing stops. */
    method Stop()
      requires Valid()
      modifies this
      ensures Valid()
      ensures !isPlaying && calls == old(calls) + [Cancel] && utterance == old(utterance)
      ensures text == old(text) && voices == old(voices) && selectedVoice == old(selectedVoice)
    {
      calls := calls + [Cancel];
      isPlaying := false;
    }

    /** The utterance's `onend` and `onerror`: playing stops, nothing else changes. */
    method OnUtteranceSettled()
      requires Valid()
      modifies this
      ensures Valid()
      ensures !isPlaying && calls == old(calls) && utterance == old(utterance)
      ensures text == old(text) && voices == old(voices) && selectedVoice == old(selectedVoice)
    {
      isPlaying := false;
    }
  }
}
