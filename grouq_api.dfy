/** Transcription with the local speech model and the chat call to Groq's
    completion endpoint. Both services are parameters of the model. */
module GroqApi {
  import opened Common
  import opened Text
  import opened Database

  /** What `convert_audio_to_text` and `_get_file_obj` are given: a path (with the
      bytes of the file there, None when it does not exist), an uploaded file, or
      an open binary stream. */
  datatype AudioSource = PathSource(existing: Option<Bytes>) | UploadSource(upload: Bytes) | StreamSource(stream: Bytes)

  /** `_get_file_obj`: the object to read the audio from. An upload yields its
      underlying file, a path is opened (raising when nothing is there) and a
      stream is returned as it is; the result is the bytes that object reads. */
  function FileObj(source: AudioSource): (r: Call<Bytes>)
    ensures r.Raised? <==> source.PathSource? && source.existing.None?
    ensures r.Returned? ==> r.value == match source
      case PathSource(existing) => existing.value
      case UploadSource(upload) => upload
      case StreamSource(stream) => stream
  {
    match source
    case UploadSource(upload) => Returned(upload)
    case PathSource(existing) => if existing.Some? then Returned(existing.value) else Raised
    case StreamSource(stream) => Returned(stream)
  }

  /** The global `whisper_model`: not loaded, or a transcriber that returns the
      text of some audio or raises (None). */
  datatype Whisper = NotLoaded | Loaded(transcribe: Bytes -> Option<string>)

  /** Whether `convert_audio_to_text` copies its input to the temporary file:
      only for a loaded model and an input that is not a path. */
  predicate UsesTemp(source: AudioSource, model: Whisper) {
    model.Loaded? && !source.PathSource?
  }

  /** The bytes handed to the model: those of an existing path, or those of a
      stream once they were written to the temporary file. An `UploadFile` never
      gets there: its `read` is a coroutine that is not awaited, and writing that
      coroutine to the file raises. */
  function Materialised(source: AudioSource, tempWrite: Write): (audio: Option<Bytes>)
    ensures source.UploadSource? ==> audio.None?
    ensures source.StreamSource? ==> (audio.Some? <==> tempWrite == Written)
  {
    match source
    case PathSource(existing) => existing
    case UploadSource(_) => None
    case StreamSource(stream) => if tempWrite == Written then Some(stream) else None
  }

  /** What `convert_audio_to_text` returns when its cleanup succeeds: None when
      the model is not loaded, the path does not exist or anything raises, and
      otherwise the model's text with surrounding whitespace stripped. */
  function TranscriptOf(source: AudioSource, model: Whisper, tempWrite: Write): (t: Option<string>)
    ensures t.None? <==>
      model.NotLoaded? || Materialised(source, tempWrite).None? ||
      model.transcribe(Materialised(source, tempWrite).value).None?
    ensures t.Some? ==> t.value == Strip(model.transcribe(Materialised(source, tempWrite).value).value)
    ensures t.Some? ==> Strip(t.value) == t.value
    ensures source.UploadSource? ==> t.None?
  {
    if model.NotLoaded? then None
    else match Materialised(source, tempWrite)
      case None => None
      case Some(audio) =>
        match model.transcribe(audio)
        case None => None
        case Some(text) => StripIdempotent(text); Some(Strip(text))
  }

  /** The temporary file once the `with open(temp_path, "wb")` block is left,
      from its state `before`: the stream's bytes when they were written, an
      empty file when the open succeeded but the write raised (always so for an
      `UploadFile`), and the file as it was when the open raised. */
  function TempWritten(source: AudioSource, before: Option<Bytes>, tempWrite: Write): (written: Option<Bytes>)
    ensures tempWrite == Refused ==> written == before
    ensures tempWrite != Refused ==> written.Some?
    ensures tempWrite != Refused && written != Some([]) ==> source.StreamSource? && tempWrite == Written && written == Some(source.stream)
  {
    match tempWrite
    case Refused => before
    case Truncated => Some([])
    case Written => if source.StreamSource? then Some(source.stream) else Some([])
  }

  /** The temporary file after `convert_audio_to_text`, from its state `before`:
      untouched when it is not used, and otherwise gone on every exit path unless
      deleting it fails. */
  function TempAfter(source: AudioSource, model: Whisper, before: Option<Bytes>, tempWrite: Write, tempRemovable: bool): (after: Option<Bytes>)
    ensures !UsesTemp(source, model) ==> after == before
    ensures UsesTemp(source, model) && tempRemovable ==> after == None
    ensures UsesTemp(source, model) && !tempRemovable ==> after == TempWritten(source, before, tempWrite)
  {
    if !UsesTemp(source, model) then before
    else if tempRemovable then None
    else TempWritten(source, before, tempWrite)
  }

  /** What `convert_audio_to_text` returns or raises: it raises only when the
      temporary file it used is still there and cannot be deleted (so also after
      a write that raised, once the open had created the file); otherwise it
      returns `TranscriptOf`. */
  function ConvertResult(source: AudioSource, model: Whisper, before: Option<Bytes>, tempWrite: Write, tempRemovable: bool): (r: Call<Option<string>>)
    ensures r.Raised? <==> UsesTemp(source, model) && !tempRemovable && (tempWrite != Refused || before.Some?)
    ensures r.Returned? ==> r.value == TranscriptOf(source, model, tempWrite)
  {
    if UsesTemp(source, model) && TempAfter(source, model, before, tempWrite, tempRemovable).Some? then Raised
    else Returned(TranscriptOf(source, model, tempWrite))
  }

  /** `convert_audio_to_text`. A non-path input is copied to `temp` (the file
      `whisper_temp.wav`); in the `finally` the temporary file is deleted if it
      exists, and a failing delete raises and replaces the result. */
  method ConvertAudioToText(source: AudioSource, model: Whisper, temp: BinaryFile, tempWrite: Write, tempRemovable: bool)
    returns (r: Call<Option<string>>)
    modifies temp
    ensures r == ConvertResult(source, model, old(temp.content), tempWrite, tempRemovable)
    ensures temp.content == TempAfter(source, model, old(temp.content), tempWrite, tempRemovable)
  {
    var usingTemp := false;
    r := Returned(None);
    if model.Loaded? {
      var audio: Option<Bytes> := None;
      match source {
        case PathSource(existing) =>
          if existing.None? {
            return;
          }
          audio := existing;
        case UploadSource(_) =>
          usingTemp := true;
          if tempWrite != Refused {
            // The open creates an empty file; writing the un-awaited `read()` raises.
            temp.content := Some([]);
          }
        case StreamSource(stream) =>
          usingTemp := true;
          if tempWrite != Refused {
            temp.content := Some([]);
          }
          if tempWrite == Written {
            temp.content := Some(stream);
            audio := Some(stream);
          }
      }
      assert audio == Materialised(source, tempWrite);
      if audio.Some? {
        var text := model.transcribe(audio.value);
        if text.Some? {
          r := Returned(Some(Strip(text.value)));
        }
      }
    }
    assert usingTemp == UsesTemp(source, model);
    assert r == Returned(TranscriptOf(source, model, tempWrite));
    assert temp.content == if usingTemp then TempWritten(source, old(temp.content), tempWrite) else old(temp.content);
    if usingTemp && temp.content.Some? {
      if tempRemovable {
        temp.content := None;
      } else {
        r := Raised;
      }
    }
  }

  const GroqModel := "llama-3.1-8b-instant"
  const MaxTokens: nat := 500
  const Temperature: real := 0.7

  const NoKeyText := "Error: GROQ_API_KEY not configured"
  // The longer texts are written in two pieces so that the verifier can read their characters.
  const RateLimitText := "Rate limit exceeded." + " Please wait a moment and try again."
  const TroubleText := "Sorry, I'm having" + " trouble connecting right now."
  const ErrorText := "Sorry, I encountered an error" + " while processing your request."

  /** The JSON body posted to `/chat/completions`. */
  datatype ChatRequest = ChatRequest(model: string, messages: seq<Turn>, maxTokens: nat, temperature: real)

  /** A 200 body as far as `choices[0].message.content` goes: a string, a JSON
      null, or a body that does not decode or lacks that path (which raises). */
  datatype ChatBody = Content(text: string) | NullContent | Malformed

  /** What posting the request gave: an HTTP answer, or an exception
      (timeout, connection error). */
  datatype ChatExchange = ChatAnswer(status: int, body: ChatBody) | ChatRaised

  /** The reply string for one exchange, with every failure turned into text. */
  function ReplyFor(exchange: ChatExchange): Option<string> {
    match exchange
    case ChatRaised => Some(ErrorText)
    case ChatAnswer(status, body) =>
      if status == 200 then
        match body
        case Content(text) => Some(text)
        case NullContent => None
        case Malformed => Some(ErrorText)
      else if status == 429 then Some(RateLimitText)
      else Some(TroubleText)
  }

  /** What `get_chat_response` posted (None: nothing) and what it returned. */
  datatype ChatCall = ChatCall(sent: Option<ChatRequest>, reply: Option<string>)

  /** `get_chat_response` on the history file in state `history`: without a key
      nothing is posted; otherwise the window followed by the user's turn is
      posted and the exchange is mapped to a reply. It never raises. */
  function ChatReply(input: string, keySet: bool, draw: int, history: StoredFile, groq: ChatRequest -> ChatExchange): (c: ChatCall)
    requires 0 <= draw <= 1
    ensures !keySet <==> c.sent.None?
    ensures !keySet ==> c.reply == Some(NoKeyText)
    ensures keySet ==> var messages := c.sent.value.messages;
      c.sent.value == ChatRequest(GroqModel, messages, MaxTokens, Temperature) &&
      messages == Window(SystemInstruction(draw), history) + [Turn(User, input)]
  {
    if !keySet then ChatCall(None, Some(NoKeyText))
    else
      var request := ChatRequest(GroqModel, Window(SystemInstruction(draw), history) + [Turn(User, input)], MaxTokens, Temperature);
      ChatCall(Some(request), ReplyFor(groq(request)))
  }

  /** `get_chat_response`, reading the history through `get_recent_messages` and
      appending the user's turn to the list it returns. */
  method GetChatResponse(input: string, keySet: bool, draw: int, history: HistoryFile, groq: ChatRequest -> ChatExchange)
    returns (sent: Option<ChatRequest>, reply: Option<string>)
    requires 0 <= draw <= 1
    ensures ChatCall(sent, reply) == ChatReply(input, keySet, draw, history.stored, groq)
  {
    if !keySet {
      return None, Some(NoKeyText);
    }
    var messages := history.RecentMessages(draw);
    messages := messages + [Turn(User, input)];
    var request := ChatRequest(GroqModel, messages, MaxTokens, Temperature);
    sent := Some(request);
    reply := ReplyFor(groq(request));
  }

  /** The posted messages: the system instruction first, the user's text
      unchanged last, and between them the window's stored turns. */
  lemma ChatRequestShape(input: string, draw: int, history: StoredFile, groq: ChatRequest -> ChatExchange)
    requires 0 <= draw <= 1
    ensures var m := ChatReply(input, true, draw, history, groq).sent.value.messages;
      |m| == 2 + |Recent(history)| &&
      m[0] == SystemInstruction(draw) && m[|m| - 1] == Turn(User, input) &&
      m[1..|m| - 1] == Recent(history)
  {
    var m := ChatReply(input, true, draw, history, groq).sent.value.messages;
    assert m[1..|m| - 1] == Window(SystemInstruction(draw), history)[1..];
  }

  /** How the service's answer to the posted request becomes the reply:
      200 gives the content, 429 the rate-limit text, any other status the
      connection text and an exception the error text. */
  lemma ReplyCases(input: string, draw: int, history: StoredFile, groq: ChatRequest -> ChatExchange)
    requires 0 <= draw <= 1
    ensures var c := ChatReply(input, true, draw, history, groq);
      var answer := groq(c.sent.value);
      (answer.ChatRaised? ==> c.reply == Some(ErrorText)) &&
      (answer.ChatAnswer? && answer.status == 200 && answer.body.Content? ==> c.reply == Some(answer.body.text)) &&
      (answer.ChatAnswer? && answer.status == 200 && answer.body.Malformed? ==> c.reply == Some(ErrorText)) &&
      (answer.ChatAnswer? && answer.status == 429 ==> c.reply == Some(RateLimitText)) &&
      (answer.ChatAnswer? && answer.status != 200 && answer.status != 429 ==> c.reply == Some(TroubleText))
  {
  }

  /** The four fallback texts are distinct and none of them is blank. */
  lemma FallbacksDistinct()
    ensures NoKeyText != RateLimitText && NoKeyText != TroubleText && NoKeyText != ErrorText
    ensures RateLimitText != TroubleText && RateLimitText != ErrorText && TroubleText != ErrorText
    ensures !IsBlank(NoKeyText) && !IsBlank(RateLimitText) && !IsBlank(TroubleText) && !IsBlank(ErrorText)
  {
    assert NoKeyText[0] == 'E' && RateLimitText[0] == 'R' && TroubleText[0] == 'S' && ErrorText[0] == 'S';
    NotBlankAt(NoKeyText, 0);
    NotBlankAt(RateLimitText, 0);
    NotBlankAt(TroubleText, 0);
    NotBlankAt(ErrorText, 0);
    assert |TroubleText| != |ErrorText|;
  }

  /** The reply is missing or blank exactly when a key is set and the service
      answered 200 with a null or blank content: every fallback is a real text,
      so a failing service never yields an empty reply. */
  lemma EmptyReplyOnlyFromService(input: string, keySet: bool, draw: int, history: StoredFile, groq: ChatRequest -> ChatExchange)
    requires 0 <= draw <= 1
    ensures var c := ChatReply(input, keySet, draw, history, groq);
      (c.reply.None? || IsBlank(c.reply.value)) <==>
      keySet && var answer := groq(c.sent.value);
      answer.ChatAnswer? && answer.status == 200 &&
      (answer.body.NullContent? || (answer.body.Content? && IsBlank(answer.body.text)))
  {
    FallbacksDistinct();
    var c := ChatReply(input, keySet, draw, history, groq);
    if keySet {
      var answer := groq(c.sent.value);
      assert c.reply == ReplyFor(answer);
    }
  }
}
