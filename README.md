# Voice chat backend: history store, transcription, chat, speech and the turn pipeline

This project models the server side of a voice chat with an assistant persona. One
turn of the conversation:

- locates the user's recorded audio;
- transcribes it with a local speech model;
- sends the transcript and a window of the stored conversation to the Groq chat
  completion service;
- stores the exchange in `stored_data.json`;
- has ElevenLabs speak the reply into `voice.mp3`;
- streams that audio back.

The speech model and the two HTTP services are parameters of the model. So are the
coin flip that picks the persona's suffix and whether each file operation succeeds.
Everything the backend decides on top of them is modelled and proved.

- `common.dfy` (module `Common`) holds the shared pieces. `Option` stands for Python's
  `None`. `Call` is a call that returns or raises. `byte` and `Bytes` are file
  contents. `BinaryFile` is a file at one path, updated in place.
- `text.dfy` (module `Text`) models Python's `str.strip()` over the characters for
  which `str.isspace()` holds. `IsBlank` is the backend's "empty or whitespace-only"
  test.
- `database.dfy` (module `Database`) models the conversation history.
  `HistoryFile` is the JSON file, in one of four states: absent, corrupt, unreadable
  or a list of turns. Its methods are `get_recent_messages`, `store_messages` and
  `reset_messages`. Each is proved against a specification function: `Window` for
  the first, `AfterStore` for the second.
- `grouq_api.dfy` (module `GroqApi`) models `_get_file_obj` and
  `convert_audio_to_text`, including the temporary file and its cleanup. It also
  models `get_chat_response`: the request it assembles and how the answer becomes a
  reply text.
- `text_to_speech.dfy` (module `TextToSpeech`) models `convert_text_to_speech`: the
  guards in their order, the request and the write of `voice.mp3`.
- `main.dfy` (module `Server`) models the rest of the server:
  - `save_conversation`;
  - the `/reset` endpoint;
  - the two audio endpoints `get_audio` and `post_audio`, as imperative methods.

  Each endpoint method is proved against `Pipeline`, a function from what each stage
  produced to the HTTP answer and the stages that ran.

The backend uses two `stored_data.json` files. `store_messages` and `reset_messages`
use the one in the working directory. `get_recent_messages` and `save_conversation`
use the one in the backend directory. When the server runs from the backend
directory these are the same file. The model keeps them as two `HistoryFile` objects
that may be one and the same, and the same holds for the two `voice.mp3` paths of
`get_audio`. When the log files coincide, a GET turn stores its exchange twice
(`Server.SameFileStoresTwice`).

`convert_audio_to_text` deletes its temporary file in a `finally` block, and a delete
that fails raises. Such a turn ends in the "Audio transcription failed" 400. Nothing
in the code swallows that error, so the model lets the delete raise. The same holds
when the temporary file was created but writing to it raised.

`convert_audio_to_text` also accepts an `UploadFile`. It calls that object's `seek`
and `read` without awaiting them, although they are coroutines. Writing the coroutine
to the temporary file raises, so an `UploadFile` is never transcribed: the result is
None and an empty temporary file is left for the cleanup. No handler passes an
`UploadFile`: `post_audio` passes the file it reopened.

## Model

| member | source | states |
|---|---|---|
| Text.Strip | backend/functions/grouq_api.py:71 | the stripped text is no longer than the input and neither starts nor ends with whitespace |
| Text.StripIsSlice | backend/functions/grouq_api.py:71 | stripping removes only whitespace: the result is a contiguous slice of the input with only whitespace before and after it |
| Text.StripIdempotent | backend/functions/grouq_api.py:71 | stripping a stripped text changes nothing |
| Text.BlankIffAllSpace | backend/main.py:157 | the blank test holds exactly when every character is whitespace |
| Text.BlankIffStripEmpty | backend/functions/text_to_speech.py:14 | a text is blank exactly when `strip()` gives the empty text, so the backend's two ways of testing for emptiness agree |
| Database.SystemInstruction | backend/functions/database.py:26-42 | the instruction has the system role; its content is the persona plus the humour suffix exactly when the draw is 0, and plus the question suffix exactly when it is 1 |
| Database.Window | backend/functions/database.py:45-78 | the window starts with the instruction. A file that is absent, corrupt or unreadable gives the instruction alone. A list `d` gives `1 + min(|d|, 5)` entries, and entries 1.. are the last ones of `d` in their order |
| Database.HistoryFile.RecentMessages | backend/functions/database.py:6-78 | the list built by appending in the two loops is exactly `Window` of the stored file |
| Database.HistoryFile.StoreMessages | backend/functions/database.py:80-116 | raises exactly on a read error other than a parse error, or on a failed write, and then leaves the file unchanged; otherwise writes the old list (empty for an absent or corrupt file) plus the user turn and then the assistant turn |
| Database.HistoryFile.ResetMessages | backend/functions/database.py:118-135 | a successful write leaves the empty list; a failed write raises and leaves the file unchanged |
| Database.StoreAppendsPair | backend/functions/database.py:88-109 | a successful store keeps the old prefix, grows the list by exactly 2 and ends with the user turn then the assistant turn; an absent or corrupt file becomes exactly that pair |
| Database.WindowAfterStore | backend/functions/database.py:100-109 | after a successful store, the next window ends with the exchange just stored and has `1 + min(n + 2, 5)` entries |
| Database.WindowAfterReset | backend/functions/database.py:126-128 | a file holding the empty list, as a reset leaves it, gives a window of the instruction alone (whether `/reset` clears the chat's window is `Server.WindowAfterResetEndpoint`) |
| Database.StorePreservesAlternating | backend/functions/database.py:100-105 | storing a pair keeps a log alternating user, assistant, user, … |
| Database.StoresAfterReset | backend/functions/database.py:100-109 | after a reset, N successful stores leave exactly the 2N turns of those exchanges, in order |
| GroqApi.FileObj | backend/functions/grouq_api.py:37-43 | raises exactly for a path that does not exist; otherwise reads the upload's file, the opened path or the stream itself |
| GroqApi.Materialised | backend/functions/grouq_api.py:55-66 | an `UploadFile` never reaches the model (its un-awaited `read` makes the write raise); a stream reaches it exactly when its write to the temporary file succeeded |
| GroqApi.TranscriptOf | backend/functions/grouq_api.py:46-75 | None exactly when the model is not loaded, the path is missing, the input never reached the model or the model raised; always None for an `UploadFile`; otherwise the model's text stripped, which is a fixed point of stripping |
| GroqApi.TempWritten | backend/functions/grouq_api.py:61-65 | a refused open leaves the temporary file as it was; a successful open leaves a file, empty unless a stream's bytes were written |
| GroqApi.TempAfter | backend/functions/grouq_api.py:54-78 | a path input or an unloaded model never touches the temporary file. A non-path input leaves no temporary file when deletion succeeds, and leaves what the write left (`TempWritten`) when it does not |
| GroqApi.ConvertResult | backend/functions/grouq_api.py:46-78 | raises exactly when the temporary file was used, exists at cleanup (the open created it, or it was already there) and cannot be deleted; otherwise returns `TranscriptOf` |
| GroqApi.ConvertAudioToText | backend/functions/grouq_api.py:46-78 | the method's result and the temporary file afterwards are `ConvertResult` and `TempAfter` of the inputs and the file before |
| GroqApi.ChatReply | backend/functions/grouq_api.py:81-129 | without a key nothing is sent and the reply is the not-configured text; with one, the request is the fixed model, 500 tokens, temperature 0.7, and the window followed by the user's turn |
| GroqApi.GetChatResponse | backend/functions/grouq_api.py:81-129 | what the method sends and returns is `ChatReply` on the history file as it stands |
| GroqApi.ChatRequestShape | backend/functions/grouq_api.py:96-106 | the messages sent are the instruction, then the window's stored turns, then the user's text unchanged as the last message |
| GroqApi.ReplyCases | backend/functions/grouq_api.py:118-129 | 200 gives the content (a malformed body gives the error text), 429 the rate-limit text, any other status the connection text, an exception the error text |
| GroqApi.FallbacksDistinct | backend/functions/grouq_api.py:83-129 | the four fallback texts are pairwise distinct and none is blank |
| GroqApi.EmptyReplyOnlyFromService | backend/functions/grouq_api.py:118-129 | the reply is None or blank exactly when a key is set and the service answered 200 with null or blank content |
| TextToSpeech.SpeechRequestFor | backend/functions/text_to_speech.py:21-38 | the request carries the text unchanged, the Rachel voice, stability 0 and similarity boost 0 |
| TextToSpeech.SpeechOutcome | backend/functions/text_to_speech.py:7-67 | the result is `voice.mp3` exactly when the key is set, the text is not blank, the service answered 200 and the write succeeded; otherwise None, whatever exception the service raised |
| TextToSpeech.ConvertTextToSpeech | backend/functions/text_to_speech.py:7-67 | sends a request only when the key is set and the text is not blank; returns `SpeechOutcome`; `voice.mp3` holds the answer's bytes exactly when a name is returned and is unchanged otherwise |
| TextToSpeech.GuardsRefuse | backend/functions/text_to_speech.py:10-16 | a missing key or a blank text gives None whatever the service would answer |
| Server.SaveConversation | backend/main.py:49-74 | returns True exactly when the write succeeds. It appends user then assistant to the stored list, or to the empty list after any read failure, and never raises |
| Server.SaveVersusStore | backend/main.py:49-74 | `save_conversation` writes what `store_messages` writes, except on an unreadable file, which the former replaces and the latter leaves |
| Server.SameFileStoresTwice | backend/main.py:180-190 | when both log paths name one file, a GET turn appends its exchange twice |
| Server.Finish | backend/main.py:192-225 | after persistence, the turn streams audio exactly when speech succeeded and the audio was read back; persistence is among its stages |
| Server.Pipeline | backend/main.py:130-236 | a turn streams audio exactly when every stage succeeded, as one chunk with the route's media type; it persists exactly after a decoded transcript and a reply that is not blank |
| Server.StagesInOrder | backend/main.py:130-225 | the stages that ran are a non-empty prefix of the route's stage list: none runs after a fatal failure and none is skipped |
| Server.PipelineExits | backend/main.py:130-236 | every error is 400, 404 or 500. 404 comes exactly from GET input missing at both paths. A failed or blank transcript is 400 before chat, a blank reply is 400 before persistence, failed speech is 400 and a failed read-back is 500 |
| Server.ResetConversation | backend/main.py:110-120 | 200 and an empty log when the reset write succeeds, 500 and the log unchanged when it raises |
| Server.WindowAfterResetEndpoint | backend/functions/database.py:14-17 | a successful `/reset` empties the working-directory log, and the next chat window is the instruction alone exactly when that is the backend-directory file the window is read from, or that file shows no turns |
| Server.HistoryWritesDoNotDecide | backend/main.py:180-190 | whether `store_messages` and `save_conversation` succeed changes neither handler's answer nor its stages |
| Server.PersistAndSpeak | backend/main.py:179-225 | the response and stages are `Finish`. GET stores and then saves (into one file twice when the paths coincide), POST only stores, and a failed store does not stop the turn. `voice.mp3` holds the spoken audio |
| Server.Converse | backend/main.py:147-225 | the response and stages are `Pipeline` of what transcription, chat and speech produce; nothing is stored and `voice.mp3` is untouched unless the turn persists |
| Server.TranscribeAndConverse | backend/main.py:147-225 | transcription followed by the shared tail: the response is `Pipeline` of `ConvertResult` and what chat and speech produce; the temporary file ends as `TempAfter` |
| Server.GetAudio | backend/main.py:123-236 | the GET handler's response and stages are `Pipeline` of its observed stages, from `voice.mp3` at the first path that has it; the temporary file is never touched, and the logs and voice change only when the turn persists |
| Server.PostAudio | backend/main.py:239-344 | the POST handler's response and stages are `Pipeline` of its observed stages. The upload is saved first, and a failed save is a 500. The temporary file ends as `TempAfter` of a stream input, and only the working-directory log is written |

## Left out

- The speech model, the Groq service and the ElevenLabs service are uninterpreted function parameters. The same holds for the draw of `random.randint(0, 1)` and for the success of each file operation. Model loading (`load_whisper_model`), `decouple` configuration, FastAPI routing, CORS, the root endpoint, `check_groq_limits` and all logging are not modelled.
- Database.HistoryFile.StoreMessages: a failed write is modelled as leaving the file unchanged. In Python, `open(..., "w")` may already have truncated the file by then. The same simplification is made in:
  - `ResetMessages` and `SaveConversation`;
  - TextToSpeech.ConvertTextToSpeech: a failed write of `voice.mp3` leaves it as it was, although the source may leave it empty, and a GET reads that file as its next input. The result is None in both cases;
  - Server.PostAudio: a failed save of the upload leaves that file as it was; the answer is the 500 in both cases.

  Only the temporary file of `convert_audio_to_text` distinguishes a refused open from a write that raised (`Write`), because there the difference decides whether the cleanup raises.
- Server.PostAudio: an upload named `stored_data.json` or `voice.mp3` would overwrite that file. The model keeps the upload, the logs and `voice.mp3` as distinct files.
- A JSON file that parses but is not a list, and list entries that are not `{role, content}` objects, are not modelled: a file parses to a list of turns or counts as corrupt.
- Text encodings, `indent`/`ensure_ascii` and JSON formatting are not modelled; the log is a sequence of turns.
- Exception messages (`str(e)`) that some HTTP details embed are dropped; each detail keeps its fixed text.
- The 400 branches "Chat response failed" and "Text-to-speech failed" (backend/main.py:168-171, 197-200, 280-283, 305-308) never fire in this model. `get_chat_response` and `convert_text_to_speech` catch everything inside their own `try`. The import inside `get_chat_response`, which could raise, is not modelled.
- A 200 chat answer is modelled as a text, a JSON null, or malformed (which raises inside the `try`). A content of another JSON type is not modelled.
- Server.PostAudio: requires that the upload's file name is not `whisper_temp.wav` and that it differs from `voice.mp3`. It does not model a failure to reopen the upload just written. The file handle's `seek(0)` and `close()` are implicit: the stream gives the whole upload.
- Server.GetAudio: requires that `whisper_temp.wav` is not one of the `voice.mp3` paths. A path input never uses that file anyway.
- GroqApi.FileObj is modelled on its own, because `convert_audio_to_text` does not call `_get_file_obj`. `convert_audio_to_text` reads its input itself, which for an `UploadFile` fails as described above.
- Absolute-path resolution is modelled only as which file objects may be the same. Concurrent requests doing read-modify-write on the shared JSON file are not modelled.
