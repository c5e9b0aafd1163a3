/**
 * The controller of app/image-generator/page.tsx: the prompt, the generating
 * flag and the shown image. `handleGenerate` works in two phases: at once it
 * starts generating, and a timer later it shows the placeholder image for the
 * prompt as it was when the timer was set.
 */
module ImageGenerator {
  import opened JsText
  import Api
  import ImageGeneratorApi

  class ImageGeneratorPage {
    var prompt: string
    var isGenerating: bool
    var generatedImage: Option<string>

    /** Any image shown is a placeholder locator. */
    ghost predicate Valid()
      reads this
    {
      generatedImage.Some? ==>
        |generatedImage.value| >= |ImageGeneratorApi.PlaceholderPrefix|
        && generatedImage.value[..|ImageGeneratorApi.PlaceholderPrefix|] == ImageGeneratorApi.PlaceholderPrefix
    }

    constructor ()
      ensures Valid() && prompt == "" && !isGenerating && generatedImage.None?
    {
      prompt := "";
      isGenerating := false;
      generatedImage := None;
    }

    /** The generate button: disabled for a blank prompt or while generating. */
    function CanGenerate(): (enabled: bool)
      reads this
      ensures enabled <==> !IsBlank(prompt) && !isGenerating
    {
      Trim(prompt) != [] && !isGenerating
    }

    /**
     * `handleGenerate`, immediate part. A blank prompt changes nothing and sets no
     * timer; otherwise generating starts and the timer holds the current prompt.
     */
    method BeginGenerate() returns (timer: Option<string>)
      requires Valid()
      modifies this
      ensures Valid()
      ensures IsBlank(old(prompt)) ==> timer.None? && unchanged(this)
      ensures !IsBlank(old(prompt)) ==>
                timer == Some(old(prompt)) && isGenerating
                && prompt == old(prompt) && generatedImage == old(generatedImage)
    {
      if TrimsToEmpty(prompt) {
        return None;
      }
      isGenerating := true;
      timer := Some(prompt);
    }

    /** The timer callback: the placeholder for the captured prompt is shown and generating stops. */
    method CompleteGenerate(captured: string, encode: string -> string)
      requires Valid()
      modifies this
      ensures Valid()
      ensures generatedImage == Some(ImageGeneratorApi.PlaceholderUrl(encode, captured))
      ensures !isGenerating && prompt == old(prompt)
    {
      generatedImage := Some(ImageGeneratorApi.PlaceholderPrefix + encode(captured));
      isGenerating := false;
    }

    /** `handleDownload`: the link target is the shown image; nothing happens without one. */
    method Download() returns (href: Option<string>)
      requires Valid()
      ensures href.None? <==> generatedImage.None?
      ensures href.Some? ==>
                href.value == generatedImage.value
                && href.value[..|ImageGeneratorApi.PlaceholderPrefix|] == ImageGeneratorApi.PlaceholderPrefix
    {
      if generatedImage.None? {
        return None;
      }
      href := Some(generatedImage.value);
    }

    /** `handleRegenerate`: the image is cleared, then `handleGenerate` runs; a blank prompt leaves no image. */
    method Regenerate() returns (timer: Option<string>)
      requires Valid()
      modifies this
      ensures Valid()
      ensures generatedImage.None? && prompt == old(prompt)
      ensures IsBlank(old(prompt)) ==> timer.None? && isGenerating == old(isGenerating)
      ensures !IsBlank(old(prompt)) ==> timer == Some(old(prompt)) && isGenerating
    {
      generatedImage := None;
      timer := BeginGenerate();
    }
  }

  /** The page shows the same locator the route would return for the same prompt. */
  lemma SameLocatorAsRoute(prompt: string, apiKey: string, description: string, encode: string -> string)
    requires apiKey != ""
    ensures ImageGeneratorApi.Post(Some(ImageGeneratorApi.ImageRequest(Some(prompt))), Some(apiKey),
                                   _ => Api.Generated(description), encode).response.body.imageUrl
         == ImageGeneratorApi.PlaceholderUrl(encode, prompt)
  {
  }
}
