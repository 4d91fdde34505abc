/**
 * The request-option and format helpers of the TextToSpeech class:
 * `validateRequestOptions` and `getOutputFormats`. A request's options are
 * a string-keyed array whose values are strings or null.
 */
module TextToSpeech {
  import opened Wrappers
  import opened PhpStrings
  import OutputFormat

  const TextTypeDefault := "ssml"
  const OutputFormatDefault := "mp3"

  /** The four keys a validated request carries. */
  const RequestKeys: set<string> := {"Text", "OutputFormat", "TextType", "VoiceId"}

  /** A required option is present and truthy. */
  predicate HasTruthy(options: map<string, Option<string>>, key: string) {
    key in options && Truthy(options[key])
  }

  /**
   * `validateRequestOptions`: null when Text or VoiceId is missing or falsy;
   * otherwise exactly the four request keys, OutputFormat and TextType
   * defaulted to "mp3" and "ssml" when absent, every other key dropped.
   * `array_key_exists` sees a key whose value is null, so a present null is
   * passed through rather than defaulted.
   */
  function ValidateRequestOptions(options: map<string, Option<string>>): (r: Option<map<string, Option<string>>>)
    ensures r.None? <==> !HasTruthy(options, "Text") || !HasTruthy(options, "VoiceId")
    ensures r.Some? ==> r.value.Keys == RequestKeys
    ensures r.Some? ==> r.value["Text"] == options["Text"] && r.value["VoiceId"] == options["VoiceId"]
    ensures r.Some? ==> r.value["OutputFormat"] == (if "OutputFormat" in options then options["OutputFormat"] else Some(OutputFormatDefault))
    ensures r.Some? ==> r.value["TextType"] == (if "TextType" in options then options["TextType"] else Some(TextTypeDefault))
  {
    if !HasTruthy(options, "Text") || !HasTruthy(options, "VoiceId") then None
    else
      var outputFormat := if "OutputFormat" in options then options["OutputFormat"] else Some(OutputFormatDefault);
      var textType := if "TextType" in options then options["TextType"] else Some(TextTypeDefault);
      Some(map["Text" := options["Text"], "OutputFormat" := outputFormat,
               "TextType" := textType, "VoiceId" := options["VoiceId"]])
  }

  /** Validating an already validated request changes nothing. */
  lemma ValidateIdempotent(options: map<string, Option<string>>)
    requires ValidateRequestOptions(options).Some?
    ensures ValidateRequestOptions(ValidateRequestOptions(options).value) == ValidateRequestOptions(options)
  {
  }

  /** Keys other than the four request keys never reach the result, whatever they hold. */
  lemma ValidateIgnoresOtherKeys(options: map<string, Option<string>>, key: string, value: Option<string>)
    requires key !in RequestKeys
    ensures ValidateRequestOptions(options[key := value]) == ValidateRequestOptions(options)
  {
  }

  /** An optional key that is present but null stays null: only an absent key takes the default. */
  lemma PresentNullNotDefaulted(options: map<string, Option<string>>)
    requires HasTruthy(options, "Text") && HasTruthy(options, "VoiceId")
    requires "OutputFormat" in options && options["OutputFormat"].None?
    requires "TextType" !in options
    ensures ValidateRequestOptions(options).value["OutputFormat"].None?
    ensures ValidateRequestOptions(options).value["TextType"] == Some(TextTypeDefault)
  {
  }

  /** `getOutputFormats`: Polly format name to file extension; the repeated "mp3" entry collapses. */
  function OutputFormats(): map<string, string> {
    map[OutputFormatDefault := "mp3", OutputFormat.PollyMp3 := "mp3",
        OutputFormat.PollyOgg := "ogg", OutputFormat.PollyPcm := "pcm"]
  }

  /**
   * The table has three entries, mp3, ogg_vorbis and pcm, and each maps to
   * the extension the models' output-format normalisation gives that name.
   */
  lemma OutputFormatsTable()
    ensures OutputFormats().Keys == {"mp3", "ogg_vorbis", "pcm"}
    ensures |OutputFormats()| == 3
    ensures forall f :: f in OutputFormats() ==> OutputFormats()[f] == OutputFormat.Normalize(Some(f))
  {
    assert OutputFormats().Keys == {"mp3", "ogg_vorbis", "pcm"};
    assert Lower("mp3") == "mp3";
    assert Lower("ogg_vorbis") == "ogg_vorbis";
    assert Lower("pcm") == "pcm";
  }
}
