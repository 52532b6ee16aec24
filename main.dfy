/** The HTTP side of the backend: `save_conversation`, the reset endpoint and the
    two audio endpoints, each a fixed sequence of stages that stops at the first
    fatal failure. Services and file outcomes are parameters. */
module Server {
  import opened Common
  import opened Text
  import opened Database
  import opened GroqApi
  import opened TextToSpeech

  /** The file `save_conversation` writes: any read failure (its `except` is bare)
      starts from an empty list; a failed write leaves the file as it was. */
  function AfterSave(file: StoredFile, user: string, assistant: string, writable: bool): StoredFile {
    if writable then Valid((if file.Valid? then file.log else []) + Pair(user, assistant)) else file
  }

  /** `save_conversation`: the same read-append-write as `store_messages`, but it
      reports failure as False instead of raising. */
  method SaveConversation(user: string, assistant: string, log: HistoryFile, writable: bool) returns (saved: bool)
    modifies log
    ensures saved == writable
    ensures log.stored == AfterSave(old(log.stored), user, assistant, writable)
  {
    var data: seq<Turn>;
    match log.stored {
      case Valid(existing) =>
        data := existing;
      case _ =>
        data := [];
    }
    data := data + [Turn(User, user)];
    data := data + [Turn(Assistant, assistant)];
    if !writable {
      return false;
    }
    log.stored := Valid(data);
    saved := true;
  }

  /** `save_conversation` and `store_messages` write the same log, except that an
      unreadable file makes the latter raise and the former start afresh. */
  lemma SaveVersusStore(file: StoredFile, user: string, assistant: string)
    ensures !file.Unreadable? ==> AfterSave(file, user, assistant, true) == AfterStore(file, user, assistant, true)
    ensures file.Unreadable? ==> AfterSave(file, user, assistant, true) == Valid(Pair(user, assistant)) &&
                                 AfterStore(file, user, assistant, true) == file
  {
  }

  /** When both paths name one file, a turn of `get_audio` stores its exchange twice. */
  lemma SameFileStoresTwice(file: StoredFile, user: string, assistant: string)
    requires !StoreRaises(file, true)
    ensures var after := AfterSave(AfterStore(file, user, assistant, true), user, assistant, true);
      after == Valid(Existing(file) + Pair(user, assistant) + Pair(user, assistant)) &&
      |after.log| == |Existing(file)| + 4
  {
  }

  /** The two audio endpoints. */
  datatype Route = GetRoute | PostRoute

  /** The stages of one turn, in the order they run. */
  datatype Stage = Receive | Transcribe | Chat | Store | Save | Synthesise | ReadBack

  /** An HTTP answer: the audio as a stream of chunks with its media type, or an
      HTTPException with its status and (fixed part of its) detail. */
  datatype Response = Streamed(chunks: seq<Bytes>, mediaType: string) | HttpError(status: int, detail: string)

  /** The answer and the stages that ran, in order. */
  datatype Run = Run(response: Response, stages: seq<Stage>)

  /** What each stage produced: the input found (GET) or saved (POST), the
      transcription's result, the chat reply, the speech result and the audio
      read back. A later field matters only when the earlier ones succeeded. */
  datatype Observed = Observed(received: bool, transcript: Call<Option<string>>, reply: Option<string>, speech: Option<string>, audio: Option<Bytes>)

  // The detail texts; those built from an exception keep only their fixed prefix.
  const NotFoundDetail := "Audio file not found in current directory: "
  const TranscriptionFailedDetail := "Audio transcription failed: "
  const UndecodableDetail := "Could not decode audio. Check if the file is a valid audio format."
  const NoReplyDetail := "Could not get chat response from API."
  const NoSpeechDetail := "Failed to get Eleven labs audio response."
  const ReadBackDetail := "Error reading audio file: "
  const InternalDetail := "Internal server error: "

  /** `not text or text.strip() == ""`. */
  predicate Missing(text: Option<string>) {
    text.None? || IsBlank(text.value)
  }

  /** The transcription returned a text that is not blank. */
  predicate Decoded(transcript: Call<Option<string>>) {
    transcript.Returned? && !Missing(transcript.value)
  }

  /** Every stage of a route that runs to the end: GET persists twice, POST once. */
  function Stages(route: Route): seq<Stage> {
    if route == GetRoute then [Receive, Transcribe, Chat, Store, Save, Synthesise, ReadBack]
    else [Receive, Transcribe, Chat, Store, Synthesise, ReadBack]
  }

  function MediaType(route: Route): string {
    if route == GetRoute then "audio/mpeg" else "application/octet-stream"
  }

  /** Every stage succeeded, so the turn ends in streamed audio. */
  predicate Completes(obs: Observed) {
    obs.received && Decoded(obs.transcript) && !Missing(obs.reply) && obs.speech.Some? && obs.audio.Some?
  }

  /** The turn reaches persistence: a decoded transcript and a reply that is not blank. */
  predicate Persists(obs: Observed) {
    obs.received && Decoded(obs.transcript) && !Missing(obs.reply)
  }

  /** The stages from persistence on: the speech result and the audio read back
      decide between 400, 500 and the streamed audio. */
  function Finish(route: Route, speech: Option<string>, audio: Option<Bytes>): (run: Run)
    ensures run.response.Streamed? <==> speech.Some? && audio.Some?
    ensures Store in run.stages
  {
    if speech.None? then
      Run(HttpError(400, NoSpeechDetail),
          if route == GetRoute then [Receive, Transcribe, Chat, Store, Save, Synthesise]
          else [Receive, Transcribe, Chat, Store, Synthesise])
    else if audio.None? then
      Run(HttpError(500, ReadBackDetail), Stages(route))
    else
      Run(Streamed([audio.value], MediaType(route)), Stages(route))
  }

  /** The state machine of one turn as a function of what its stages produced.
      The turn streams audio exactly when every stage succeeded, and it persists
      exactly after a decoded transcript and a reply that is not blank; a
      persistence failure never stops it. */
  function Pipeline(route: Route, obs: Observed): (run: Run)
    ensures run.response.Streamed? <==> Completes(obs)
    ensures Completes(obs) ==> run.response == Streamed([obs.audio.value], MediaType(route))
    ensures Store in run.stages <==> Persists(obs)
  {
    if !obs.received then
      Run(if route == GetRoute then HttpError(404, NotFoundDetail) else HttpError(500, InternalDetail), [Receive])
    else if obs.transcript.Raised? then
      Run(HttpError(400, TranscriptionFailedDetail), [Receive, Transcribe])
    else if Missing(obs.transcript.value) then
      Run(HttpError(400, UndecodableDetail), [Receive, Transcribe])
    else if Missing(obs.reply) then
      Run(HttpError(400, NoReplyDetail), [Receive, Transcribe, Chat])
    else
      Finish(route, obs.speech, obs.audio)
  }

  /** The stages that ran are the first ones of the route, in their order: no
      stage runs after a fatal failure and none is skipped before it. */
  lemma StagesInOrder(route: Route, obs: Observed)
    ensures var run := Pipeline(route, obs);
      1 <= |run.stages| <= |Stages(route)| && run.stages == Stages(route)[..|run.stages|]
  {
    var all := Stages(route);
    var run := Pipeline(route, obs);
    if !obs.received {
      assert run.stages == all[..1];
    } else if !Decoded(obs.transcript) {
      assert run.stages == all[..2];
    } else if Missing(obs.reply) {
      assert run.stages == all[..3];
    } else if obs.speech.None? {
      assert run.stages == all[..|all| - 1];
    } else {
      assert run.stages == all[..|all|];
    }
  }

  /** The early exits of a turn and their statuses: 404 only for a GET input
      found at neither path, 400 for a failed transcription (no later stage runs),
      for a blank reply (before any persistence) and for failed speech, and 500
      otherwise. */
  lemma PipelineExits(route: Route, obs: Observed)
    ensures var run := Pipeline(route, obs);
      (run.response.HttpError? ==> run.response.status in {400, 404, 500}) &&
      (run.response.HttpError? && run.response.status == 404 <==> route == GetRoute && !obs.received) &&
      (!obs.received ==> run.stages == [Receive]) &&
      (obs.received && !Decoded(obs.transcript) ==>
         run.response.HttpError? && run.response.status == 400 && run.stages == [Receive, Transcribe]) &&
      (obs.received && Decoded(obs.transcript) && Missing(obs.reply) ==>
         run == Run(HttpError(400, NoReplyDetail), [Receive, Transcribe, Chat])) &&
      (Persists(obs) && obs.speech.None? ==> run.response == HttpError(400, NoSpeechDetail)) &&
      (Persists(obs) && obs.speech.Some? && obs.audio.None? ==> run.response == HttpError(500, ReadBackDetail))
  {
  }

  /** The outside world of one request: the speech model, the two API keys and
      what the two HTTP services answer. */
  datatype Services = Services(
    model: Whisper,
    groqKey: bool, groq: ChatRequest -> ChatExchange,
    elevenKey: bool, elevenLabs: SpeechRequest -> SpeechExchange)

  /** Whether each file operation of one request succeeds. */
  datatype FileOps = FileOps(
    uploadWrite: bool, tempWrite: Write, tempRemove: bool,
    logWrite: bool, backendLogWrite: bool, voiceWrite: bool, voiceRead: bool)

  /** The audio read back after speech synthesis: what the service answered,
      provided the synthesis succeeded and `voice.mp3` can be read. */
  function SpokenAudio(reply: string, svc: Services, io: FileOps): Option<Bytes> {
    if SpeechOutcome(reply, svc.elevenKey, svc.elevenLabs, io.voiceWrite).Some? && io.voiceRead
    then Some(svc.elevenLabs(SpeechRequestFor(reply)).audio)
    else None
  }

  /** The stages after transcription, as the services answer them; the chat reads
      the history in the backend directory as it was when the request arrived. */
  function ObserveRest(draw: int, svc: Services, io: FileOps, received: bool, transcript: Call<Option<string>>, backendLog: StoredFile): Observed
    requires 0 <= draw <= 1
  {
    var reply := if received && Decoded(transcript) then ChatReply(transcript.value.value, svc.groqKey, draw, backendLog, svc.groq).reply else None;
    if received && Decoded(transcript) && !Missing(reply) then
      Observed(received, transcript, reply, SpeechOutcome(reply.value, svc.elevenKey, svc.elevenLabs, io.voiceWrite), SpokenAudio(reply.value, svc, io))
    else
      Observed(received, transcript, reply, None, None)
  }

  /** The audio `get_audio` transcribes: `voice.mp3` in the working directory, or
      else the one in the backend directory. */
  function GetInput(voice: Option<Bytes>, backendVoice: Option<Bytes>): Option<Bytes> {
    if voice.Some? then voice else backendVoice
  }

  /** What `get_audio`'s stages produce, from the files as the request finds them. */
  function ObserveGet(draw: int, svc: Services, io: FileOps, voice: Option<Bytes>, backendVoice: Option<Bytes>, temp: Option<Bytes>, backendLog: StoredFile): Observed
    requires 0 <= draw <= 1
  {
    var input := GetInput(voice, backendVoice);
    ObserveRest(draw, svc, io, input.Some?, ConvertResult(PathSource(input), svc.model, temp, io.tempWrite, io.tempRemove), backendLog)
  }

  /** What `post_audio`'s stages produce, from the uploaded bytes and the files as
      the request finds them. */
  function ObservePost(upload: Bytes, draw: int, svc: Services, io: FileOps, temp: Option<Bytes>, backendLog: StoredFile): Observed
    requires 0 <= draw <= 1
  {
    ObserveRest(draw, svc, io, io.uploadWrite, ConvertResult(StreamSource(upload), svc.model, temp, io.tempWrite, io.tempRemove), backendLog)
  }

  /** A failed `store_messages` or `save_conversation` is logged and ignored:
      whether the history writes succeed changes neither handler's answer nor
      the stages it runs. */
  lemma HistoryWritesDoNotDecide(upload: Bytes, draw: int, svc: Services, io: FileOps, logWrite: bool, backendLogWrite: bool,
                                 voice: Option<Bytes>, backendVoice: Option<Bytes>, temp: Option<Bytes>, backendLog: StoredFile)
    requires 0 <= draw <= 1
    ensures var other := io.(logWrite := logWrite, backendLogWrite := backendLogWrite);
      Pipeline(GetRoute, ObserveGet(draw, svc, io, voice, backendVoice, temp, backendLog)) ==
      Pipeline(GetRoute, ObserveGet(draw, svc, other, voice, backendVoice, temp, backendLog)) &&
      Pipeline(PostRoute, ObservePost(upload, draw, svc, io, temp, backendLog)) ==
      Pipeline(PostRoute, ObservePost(upload, draw, svc, other, temp, backendLog))
  {
  }

  /** The `/reset` endpoint: 200 when the history was cleared, 500 when the write raised. */
  method ResetConversation(log: HistoryFile, writable: bool) returns (status: int)
    modifies log
    ensures status == (if writable then 200 else 500)
    ensures log.stored == if writable then Valid([]) else old(log.stored)
  {
    var raised := log.ResetMessages(writable);
    if raised {
      return 500;
    }
    status := 200;
  }

  /** `/reset` empties `stored_data.json` in the working directory, while the
      chat window is read from the one in the backend directory: after a
      successful reset the next window is the instruction alone exactly when the
      two paths name one file or the backend file has no turns to show. */
  lemma WindowAfterResetEndpoint(system: Turn, backend: StoredFile, sameFile: bool)
    ensures var read := if sameFile then Valid([]) else backend;
      Window(system, read) == [system] <==> sameFile || !backend.Valid? || backend.log == []
  {
    if !sameFile && backend.Valid? && backend.log != [] {
      assert |Window(system, backend)| > 1;
    }
  }

  /** The two history files after a turn persisted `said` and `replied`: GET
      stores into `log` and saves into `backendLog`, POST only stores; when the
      two are one file the save reads what the store wrote. */
  predicate Persisted(route: Route, sameFile: bool, log0: StoredFile, backend0: StoredFile, log1: StoredFile, backend1: StoredFile,
                      said: string, replied: string, io: FileOps)
  {
    if route == PostRoute then log1 == AfterStore(log0, said, replied, io.logWrite)
    else if sameFile then log1 == AfterSave(AfterStore(log0, said, replied, io.logWrite), said, replied, io.backendLogWrite)
    else log1 == AfterStore(log0, said, replied, io.logWrite) && backend1 == AfterSave(backend0, said, replied, io.backendLogWrite)
  }

  /** `voice.mp3` after speech synthesis for `reply`: the service's audio when it
      was written, and otherwise the file as it was. */
  function VoiceAfter(reply: string, svc: Services, io: FileOps, before: Option<Bytes>): Option<Bytes> {
    if SpeechOutcome(reply, svc.elevenKey, svc.elevenLabs, io.voiceWrite).Some?
    then Some(svc.elevenLabs(SpeechRequestFor(reply)).audio) else before
  }

  /** How a turn ends, given what its stages produced: the answer and the stages
      are `Pipeline`'s; nothing is written unless the turn persists, and then
      the history files are as `Persisted` says and `voice.mp3` as `VoiceAfter`. */
  predicate Answered(route: Route, obs: Observed, run: Run, svc: Services, io: FileOps, sameFile: bool,
                     log0: StoredFile, backend0: StoredFile, voice0: Option<Bytes>,
                     log1: StoredFile, backend1: StoredFile, voice1: Option<Bytes>)
  {
    run == Pipeline(route, obs) &&
    (!Persists(obs) ==> log1 == log0 && backend1 == backend0 && voice1 == voice0) &&
    (Persists(obs) ==>
       Persisted(route, sameFile, log0, backend0, log1, backend1, obs.transcript.value.value, obs.reply.value, io) &&
       voice1 == VoiceAfter(obs.reply.value, svc, io, voice0))
  }

  /** The stages both handlers run once the reply is known (each handler repeats
      this code): `store_messages` into `log`, for GET also `save_conversation`
      into `backendLog` (a failure of either is logged and ignored), speech
      synthesis into `voice` and the read-back of `voice.mp3`. */
  method PersistAndSpeak(route: Route, message: string, reply: string, svc: Services, io: FileOps,
                         voice: BinaryFile, log: HistoryFile, backendLog: HistoryFile)
    returns (response: Response, stages: seq<Stage>)
    modifies voice, log, if route == GetRoute then {backendLog} else {}
    ensures Run(response, stages) == Finish(route, SpeechOutcome(reply, svc.elevenKey, svc.elevenLabs, io.voiceWrite), SpokenAudio(reply, svc, io))
    ensures Persisted(route, log == backendLog, old(log.stored), old(backendLog.stored), log.stored, backendLog.stored, message, reply, io)
    ensures voice.content == VoiceAfter(reply, svc, io, old(voice.content))
  {
    var _ := log.StoreMessages(message, reply, io.logWrite);
    if route == GetRoute {
      var _ := SaveConversation(message, reply, backendLog, io.backendLogWrite);
      stages := [Receive, Transcribe, Chat, Store, Save, Synthesise];
    } else {
      stages := [Receive, Transcribe, Chat, Store, Synthesise];
    }
    var audioOutput, _ := ConvertTextToSpeech(reply, svc.elevenKey, svc.elevenLabs, voice, io.voiceWrite);
    if audioOutput.None? {
      return HttpError(400, NoSpeechDetail), stages;
    }
    stages := Stages(route);
    if !io.voiceRead {
      return HttpError(500, ReadBackDetail), stages;
    }
    response := Streamed([voice.content.value], MediaType(route));
  }

  /** The stages both handlers run after transcription (each handler repeats this
      code): reject a failed or blank transcript, ask for the chat reply with the
      window read from `backendLog`, reject a missing or blank reply, then persist
      and speak. */
  method Converse(route: Route, transcript: Call<Option<string>>, draw: int, svc: Services, io: FileOps,
                  voice: BinaryFile, log: HistoryFile, backendLog: HistoryFile)
    returns (response: Response, stages: seq<Stage>)
    requires 0 <= draw <= 1
    modifies voice, log, if route == GetRoute then {backendLog} else {}
    ensures Answered(route, ObserveRest(draw, svc, io, true, transcript, old(backendLog.stored)), Run(response, stages), svc, io,
                     log == backendLog, old(log.stored), old(backendLog.stored), old(voice.content),
                     log.stored, backendLog.stored, voice.content)
  {
    if transcript.Raised? {
      return HttpError(400, TranscriptionFailedDetail), [Receive, Transcribe];
    }
    if Missing(transcript.value) {
      return HttpError(400, UndecodableDetail), [Receive, Transcribe];
    }
    var message := transcript.value.value;
    var _, chatResponse := GetChatResponse(message, svc.groqKey, draw, backendLog, svc.groq);
    if Missing(chatResponse) {
      return HttpError(400, NoReplyDetail), [Receive, Transcribe, Chat];
    }
    response, stages := PersistAndSpeak(route, message, chatResponse.value, svc, io, voice, log, backendLog);
  }

  /** The stages both handlers run once their audio is at hand (each handler
      repeats this code): transcription of `source`, then `Converse`. */
  method TranscribeAndConverse(route: Route, source: AudioSource, draw: int, svc: Services, io: FileOps,
                               voice: BinaryFile, temp: BinaryFile, log: HistoryFile, backendLog: HistoryFile)
    returns (response: Response, stages: seq<Stage>)
    requires 0 <= draw <= 1
    requires temp != voice
    modifies voice, temp, log, if route == GetRoute then {backendLog} else {}
    ensures Answered(route, ObserveRest(draw, svc, io, true, ConvertResult(source, svc.model, old(temp.content), io.tempWrite, io.tempRemove), old(backendLog.stored)),
                     Run(response, stages), svc, io,
                     log == backendLog, old(log.stored), old(backendLog.stored), old(voice.content),
                     log.stored, backendLog.stored, voice.content)
    ensures temp.content == TempAfter(source, svc.model, old(temp.content), io.tempWrite, io.tempRemove)
  {
    var decoded := ConvertAudioToText(source, svc.model, temp, io.tempWrite, io.tempRemove);
    response, stages := Converse(route, decoded, draw, svc, io, voice, log, backendLog);
  }

  /** `get_audio` (GET /post-audio-get/). `log` is `stored_data.json` in the working
      directory, written by `store_messages`; `backendLog` is the one in the backend
      directory, read for the chat window and written by `save_conversation`; they
      are one object when the server runs from the backend directory, and so are
      `voice` and `backendVoice`. */
  method GetAudio(draw: int, svc: Services, io: FileOps,
                  voice: BinaryFile, backendVoice: BinaryFile, temp: BinaryFile,
                  log: HistoryFile, backendLog: HistoryFile)
    returns (response: Response, stages: seq<Stage>)
    requires 0 <= draw <= 1
    requires temp != voice && temp != backendVoice
    modifies voice, temp, log, backendLog
    ensures Answered(GetRoute, ObserveGet(draw, svc, io, old(voice.content), old(backendVoice.content), old(temp.content), old(backendLog.stored)),
                     Run(response, stages), svc, io,
                     log == backendLog, old(log.stored), old(backendLog.stored), old(voice.content),
                     log.stored, backendLog.stored, voice.content)
    ensures temp.content == old(temp.content)
  {
    var input := if voice.content.Some? then voice.content else backendVoice.content;
    if input.None? {
      return HttpError(404, NotFoundDetail), [Receive];
    }
    response, stages := TranscribeAndConverse(GetRoute, PathSource(input), draw, svc, io, voice, temp, log, backendLog);
  }

  /** `post_audio` (POST /post-audio/). The upload is saved to `uploaded` and read
      back as a stream; the turn is persisted by `store_messages` alone. */
  method PostAudio(upload: Bytes, draw: int, svc: Services, io: FileOps,
                   uploaded: BinaryFile, voice: BinaryFile, temp: BinaryFile,
                   log: HistoryFile, backendLog: HistoryFile)
    returns (response: Response, stages: seq<Stage>)
    requires 0 <= draw <= 1
    requires uploaded != temp && uploaded != voice && temp != voice
    modifies uploaded, voice, temp, log
    ensures Answered(PostRoute, ObservePost(upload, draw, svc, io, old(temp.content), old(backendLog.stored)),
                     Run(response, stages), svc, io,
                     log == backendLog, old(log.stored), old(backendLog.stored), old(voice.content),
                     log.stored, backendLog.stored, voice.content)
    ensures uploaded.content == if io.uploadWrite then Some(upload) else old(uploaded.content)
    ensures temp.content == if io.uploadWrite then TempAfter(StreamSource(upload), svc.model, old(temp.content), io.tempWrite, io.tempRemove) else old(temp.content)
  {
    if !io.uploadWrite {
      return HttpError(500, InternalDetail), [Receive];
    }
    uploaded.content := Some(upload);
    var audioInput := uploaded.content.value;
    response, stages := TranscribeAndConverse(PostRoute, StreamSource(audioInput), draw, svc, io, voice, temp, log, backendLog);
  }
}
