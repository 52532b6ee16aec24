/** Speech synthesis through ElevenLabs: guards on the key and the text, one
    request, and the audio written to `voice.mp3`. The service is a parameter. */
module TextToSpeech {
  import opened Common
  import opened Text

  /** The file the synthesised audio is written to and whose name is returned. */
  const OutputName := "voice.mp3"
  /** The "Rachel" voice the endpoint is addressed to. */
  const RachelVoice := "UgBBYS2sOqTuMpoF3BR0"

  datatype VoiceSettings = VoiceSettings(stability: int, similarityBoost: int)

  /** The voice addressed in the endpoint path and the JSON body posted to it. */
  datatype SpeechRequest = SpeechRequest(voice: string, text: string, settings: VoiceSettings)

  /** What posting the request gave: an HTTP answer with its body, a timeout, another
      request error, or any other exception. */
  datatype SpeechExchange = SpeechAnswer(status: int, audio: Bytes) | SpeechTimeout | SpeechRequestError | SpeechUnexpected

  /** The request for `message`: the text unchanged, stability and similarity boost 0. */
  function SpeechRequestFor(message: string): (q: SpeechRequest)
    ensures q.text == message && q.voice == RachelVoice
    ensures q.settings.stability == 0 && q.settings.similarityBoost == 0
  {
    SpeechRequest(RachelVoice, message, VoiceSettings(0, 0))
  }

  /** Whether the guards let a request go out: the key is checked first, then the text. */
  predicate Admitted(keySet: bool, message: string) {
    keySet && !IsBlank(message)
  }

  /** What `convert_text_to_speech` returns: `voice.mp3` exactly when a request
      went out, the answer was 200 and the audio was written, None otherwise. */
  function SpeechOutcome(message: string, keySet: bool, elevenLabs: SpeechRequest -> SpeechExchange, writable: bool): (r: Option<string>)
    ensures r.Some? ==> r.value == OutputName
    ensures r.Some? <==> (Admitted(keySet, message) && writable &&
                          elevenLabs(SpeechRequestFor(message)).SpeechAnswer? &&
                          elevenLabs(SpeechRequestFor(message)).status == 200)
  {
    if !Admitted(keySet, message) then None
    else match elevenLabs(SpeechRequestFor(message))
      case SpeechAnswer(status, audio) => if status == 200 && writable then Some(OutputName) else None
      case _ => None
  }

  /** `convert_text_to_speech`: never raises. Nothing is sent without a key or for
      a blank text; on a 200 answer the audio is written to `output` (`voice.mp3`)
      and its name returned; a failed write leaves `output` as it was. */
  method ConvertTextToSpeech(message: string, keySet: bool, elevenLabs: SpeechRequest -> SpeechExchange, output: BinaryFile, writable: bool)
    returns (result: Option<string>, sent: Option<SpeechRequest>)
    modifies output
    ensures sent == if Admitted(keySet, message) then Some(SpeechRequestFor(message)) else None
    ensures result == SpeechOutcome(message, keySet, elevenLabs, writable)
    ensures output.content == if result.Some? then Some(elevenLabs(sent.value).audio) else old(output.content)
  {
    if !keySet {
      return None, None;
    }
    if IsBlank(message) {
      return None, None;
    }
    var request := SpeechRequest(RachelVoice, message, VoiceSettings(0, 0));
    sent := Some(request);
    var response := elevenLabs(request);
    match response {
      case SpeechAnswer(status, audio) =>
        if status == 200 {
          if writable {
            output.content := Some(audio);
            result := Some(OutputName);
          } else {
            result := None;
          }
        } else {
          result := None;
        }
      case SpeechTimeout =>
        result := None;
      case SpeechRequestError =>
        result := None;
      case SpeechUnexpected =>
        result := None;
    }
  }

  /** A blank text is refused whatever the key, and a missing key refuses every text. */
  lemma GuardsRefuse(message: string, keySet: bool, elevenLabs: SpeechRequest -> SpeechExchange, writable: bool)
    requires !keySet || IsBlank(message)
    ensures SpeechOutcome(message, keySet, elevenLabs, writable) == None
  {
  }
}
