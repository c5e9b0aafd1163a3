/**
 * The controller of app/voice-to-text/page.tsx: the recording flag, the
 * transcript, and the speech recogniser reduced to the start and stop calls
 * the page makes on it and the result and error events it delivers.
 */
module VoiceToText {

  /** One entry of `event.results`: the transcript of its first alternative and whether it is final. */
  datatype SpeechResult = SpeechResult(transcript: string, isFinal: bool)

  datatype RecognizerCall = Start | Stop

  /** The results a `result` event asks the page to look at: those from `resultIndex` on. */
  function Window(results: seq<SpeechResult>, resultIndex: nat): (w: seq<SpeechResult>)
    ensures resultIndex <= |results| ==> w == results[resultIndex..]
    ensures resultIndex > |results| ==> w == []
  {
    if resultIndex <= |results| then results[resultIndex..] else []
  }

  /** The final results' transcripts, in order, each followed by one space. */
  function FinalText(rs: seq<SpeechResult>): string {
    if rs == [] then ""
    else FinalText(rs[..|rs| - 1]) + (if rs[|rs| - 1].isFinal then rs[|rs| - 1].transcript + " " else "")
  }

  /** The non-final results' transcripts, in order, run together. */
  function InterimText(rs: seq<SpeechResult>): string {
    if rs == [] then ""
    else InterimText(rs[..|rs| - 1]) + (if rs[|rs| - 1].isFinal then "" else rs[|rs| - 1].transcript)
  }

  /** Results split anywhere contribute their two parts' text one after the other. */
  lemma {:induction false} FinalTextAppend(a: seq<SpeechResult>, b: seq<SpeechResult>)
    ensures FinalText(a + b) == FinalText(a) + FinalText(b)
    decreases |b|
  {
    if b != [] {
      var b' := b[..|b| - 1];
      assert (a + b)[..|a + b| - 1] == a + b';
      FinalTextAppend(a, b');
    } else {
      assert a + b == a;
    }
  }

  /** The text added is empty exactly when no result is final: interim results never change the transcript. */
  lemma {:induction false} FinalTextEmptyIff(rs: seq<SpeechResult>)
    ensures FinalText(rs) == "" <==> forall i :: 0 <= i < |rs| ==> !rs[i].isFinal
  {
    if rs != [] {
      var init := rs[..|rs| - 1];
      FinalTextEmptyIff(init);
      assert forall i :: 0 <= i < |init| ==> init[i] == rs[i];
    }
  }

  /** The text added holds each final result's transcript and a space, so it is at least as long as their count. */
  lemma {:induction false} FinalTextLength(rs: seq<SpeechResult>)
    ensures |FinalText(rs)| >= |set i | 0 <= i < |rs| && rs[i].isFinal|
  {
    if rs != [] {
      var init := rs[..|rs| - 1];
      FinalTextLength(init);
      var before := set i | 0 <= i < |init| && init[i].isFinal;
      var now := set i | 0 <= i < |rs| && rs[i].isFinal;
      assert now == before + (if rs[|rs| - 1].isFinal then {|rs| - 1} else {});
      assert |now| <= |before| + 1;
    }
  }

  /**
   * The loop of `onresult`: walks the results from `resultIndex` to the end,
   * collecting final transcripts (each with a trailing space) and interim ones.
   */
  method CollectResults(results: seq<SpeechResult>, resultIndex: nat)
    returns (finalTranscript: string, interimTranscript: string)
    ensures finalTranscript == FinalText(Window(results, resultIndex))
    ensures interimTranscript == InterimText(Window(results, resultIndex))
  {
    finalTranscript, interimTranscript := "", "";
    var i := resultIndex;
    while i < |results|
      invariant resultIndex <= i <= |results| || (i == resultIndex && i > |results|)
      invariant i <= |results| ==> finalTranscript == FinalText(results[resultIndex..i])
      invariant i <= |results| ==> interimTranscript == InterimText(results[resultIndex..i])
      invariant i > |results| ==> finalTranscript == "" && interimTranscript == ""
    {
      assert results[resultIndex..i + 1][..i - resultIndex] == results[resultIndex..i];
      var transcript := results[i].transcript;
      if results[i].isFinal {
        finalTranscript := finalTranscript + transcript + " ";
      } else {
        interimTranscript := interimTranscript + transcript;
      }
      i := i + 1;
    }
    if resultIndex <= |results| {
      assert results[resultIndex..i] == results[resultIndex..];
    }
  }

  class VoiceToTextPage {
    var isRecording: bool
    var transcript: string
    /** Whether the browser provided a recogniser (`recognitionRef.current` is set). */
    const hasRecognizer: bool
    /** The calls made on the recogniser, oldest first. */
    var calls: seq<RecognizerCall>

    constructor (supported: bool)
      ensures !isRecording && transcript == "" && hasRecognizer == supported && calls == []
    {
      isRecording := false;
      transcript := "";
      hasRecognizer := supported;
      calls := [];
    }

    /** `onresult`: the final text of the window is appended; the previous transcript stays a prefix. */
    method OnResult(results: seq<SpeechResult>, resultIndex: nat)
      modifies this
      ensures transcript == old(transcript) + FinalText(Window(results, resultIndex))
      ensures isRecording == old(isRecording) && calls == old(calls)
    {
      var finalTranscript, interimTranscript := CollectResults(results, resultIndex);
      transcript := transcript + finalTranscript;
    }

    /** `onerror`: recording stops; the transcript is kept. */
    method OnError()
      modifies this
      ensures !isRecording && transcript == old(transcript) && calls == old(calls)
    {
      isRecording := false;
    }

    /** `handleToggleRecording`: flips the flag and starts or stops the recogniser, if there is one. */
    method ToggleRecording()
      modifies this
      ensures isRecording == !old(isRecording)
      ensures calls == old(calls) + (if !hasRecognizer then [] else if old(isRecording) then [Stop] else [Start])
      ensures transcript == old(transcript)
    {
      if !isRecording {
        isRecording := true;
        if hasRecognizer {
          calls := calls + [Start];
        }
      } else {
        isRecording := false;
        if hasRecognizer {
          calls := calls + [Stop];
        }
      }
    }

    /** `handleClear`: the transcript is emptied. */
    method Clear()
      modifies this
      ensures transcript == "" && isRecording == old(isRecording) && calls == old(calls)
    {
      transcript := "";
    }
  }
}
