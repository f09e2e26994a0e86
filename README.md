# Voice agent: conversation, response and credential logic

This project models the decision and state logic of the two FastAPI applications of the
Twilio voice agent:
- `backend/main.py`, the backend application;
- `voicecallendpoint/main.py`, the stand-alone voice-call application.

Each application is modelled in its own module, because the two differ in small ways. The
modules are:
- **`Backend`** models `backend/main.py`:
  - the timeout classification of `get_llm_response`;
  - the speech classification, history update and TwiML response of `incoming_call` and
    `process_speech`;
  - the chat endpoints;
  - `set_twilio_credentials` over the credential record.
- **`VoiceCallEndpoint`** models the same routes of `voicecallendpoint/main.py`. This
  application has no failed-recognition branch, and speaks or returns the exception text
  without a timeout classification.
- **`ApplicationsCompared`** proves where the two applications agree and where they part.
- **Shared modules**, for what both files write the same way:
  - `Conversation`: the per-call history store, a class over a `map<string, seq<Message>>`,
    with its invariant.
  - `TwilioCredentials`: the format check, the error mapping, the credential record (a
    class) and its status view.
  - `Twiml`: the verbs and the gather action.
  - `AudioFiles`: MP3/WAV naming and the audio URL.
  - `PyText`: the Python `str` operations the handlers use.

The hosted completion API, gTTS with the MP3-to-WAV conversion, and the Twilio REST client
are not modelled. Each handler receives their outcome as a parameter:
- `LlmOutcome`: a completion, or an exception with its text.
- `TtsOutcome`: synthesis completed or failed.
- `AccountFetch` and `PhoneLookup`: the answers of the two Twilio requests.

The random file-name suffix and the request's base URL are parameters too. The speech
handlers return what they did, so the contracts can speak about it:
- the message list sent to the completion API, or `None` when no completion was asked for;
- the TwiML verbs of the response.

The credential handlers return the Twilio requests they made and the JSON answer.

What the code does is modelled even where it departs from the intended design:
- **The system prompt does not survive.** The history is cut to its newest ten messages
  after each completed exchange, and nothing keeps the system prompt at its head.
  `Conversation.PromptLastsFourExchanges` proves that a call seeded with the prompt keeps it
  through four completed exchanges and loses it for good on the fifth. After that, the
  stored history is alternating user/assistant messages alone.
- **An unknown call SID gets no system prompt.** Its history starts empty.
- **The cut comes after the completion call.** It applies to the history stored after the
  exchange, so the message list sent can hold eleven messages.
- **Every answered turn ends with a hangup.** The response is the reply, a `<Gather>` and a
  `<Hangup>`.
- **A failed completion can be played as audio.** The apology or error text is synthesized
  like an answer. When synthesis completes, the response plays that audio instead of having
  Twilio speak it (backend/main.py:474-521, voicecallendpoint/main.py:211-301). In both
  modules, `AnswerTurnResponse` proves that the reply is played iff synthesis completed,
  whether or not the completion succeeded.
- **The chat endpoints keep no history.** Each sends exactly the system prompt and the
  message, so a later chat request does not see an earlier one.

Python `str.strip()` is modelled over the exact set of characters `str.isspace()` accepts.
`str.lower()` is modelled on ASCII letters. The keyword tests ("error", "timeout", …) are
tests for ASCII strings. The only non-ASCII characters that Python lower-cases into ASCII
are KELVIN SIGN and LATIN CAPITAL LETTER I WITH DOT ABOVE, so these tests differ from Python
only on text containing one of those two.

## Model

| member | source | states |
|---|---|---|
| TwilioCredentials.ValidateFormat | backend/main.py:186-195 | Credentials pass iff the SID starts with "AC" and has at least 30 characters, the token has at least 30, and the phone number starts with "+" and has at least 10. The checks run in that order and the first failing one names the error. voicecallendpoint/main.py:543-562 repeats these checks. |
| TwilioCredentials.TwilioErrorMessage | backend/main.py:817-831 | The invalid-credentials message iff the error text contains "20003", "Authenticate" or "Invalid". Otherwise, the unauthorized message iff it contains "20001". Otherwise, "Failed to connect to Twilio: " followed by the unchanged text. voicecallendpoint/main.py:621-635 is the same. |
| TwilioCredentials.StatusView | backend/main.py:865-879 | `configured` is truthy iff the record was set through the UI and SID, token and phone number are all non-empty. When it is not, phone number and preview are empty. When it is, the phone number is shown and the preview is the first ten characters of the SID followed by "...". voicecallendpoint/main.py:652-663 is the same. |
| TwilioCredentials.StatusHidesToken | backend/main.py:872-879 | The status answer depends on the token only through whether it is empty. |
| TwilioCredentials.AcceptedCredentialsReportConfigured | backend/main.py:865-879 | Credentials that passed the format check and were stored through the UI report as configured, with the phone number and a 13-character preview that starts with "AC". |
| TwilioCredentials.SetCredentialsAttempt | backend/main.py:754-831 | No contract; it is the specification both `set_twilio_credentials` handlers are proved against (voicecallendpoint/main.py:543-615 differs only in the not-found text). Its meaning is given by `FormatErrorMakesNoCall`, `CredentialsStoredExactlyOnSuccess` and `CredentialRequestsInOrder`. |
| TwilioCredentials.FormatErrorMakesNoCall | backend/main.py:754-757 | Malformed credentials are refused with the format check's message, and no Twilio request is made. |
| TwilioCredentials.CredentialsStoredExactlyOnSuccess | backend/main.py:760-831 | The answer is a success iff three things hold: the format check passes, the account fetch returned an account, and the phone lookup did not come back empty. A lookup that raised counts as passed. A fetch that raised is answered through the error mapping. |
| TwilioCredentials.CredentialRequestsInOrder | backend/main.py:760-780 | No request is made iff the format check fails. The account fetch comes first. The phone lookup is made iff the account was found. |
| TwilioCredentials.CredentialStore.constructor | backend/main.py:30-35 | At start-up the record holds the environment values and is not marked as set through the UI. |
| TwilioCredentials.CredentialStore.Status | backend/main.py:865-879 | A record that keeps its invariant reports itself configured exactly when it was set through the UI, whatever the environment held. |
| TwilioCredentials.CredentialStore.Store | backend/main.py:791-794 | The success path writes the three fields and the UI flag together, and the record's invariant holds afterwards. |
| Conversation.NextHistory | backend/main.py:411-420 | The stored history is the newest messages of the old history followed by the new user/assistant pair. It holds at most ten messages and ends with that pair. |
| Conversation.NextHistoryWellFormed | backend/main.py:411-420 | A completed exchange keeps a history well formed: at most ten messages, alternating user/assistant, behind the system prompt or without it. |
| Conversation.NextOfAlternating | backend/main.py:418-420 | An exchange after an alternating history, cut to ten messages, still alternates user/assistant. |
| Conversation.NextOfPrompted | backend/main.py:418-420 | After the system prompt and alternating messages, an exchange keeps the prompt while the history has room. Once the cut reaches the prompt, only alternating messages remain. |
| Conversation.FullHistoryDropsPrompt | backend/main.py:420 | Once the history is full, the next exchange leaves only alternating user/assistant messages, with no system message. |
| Conversation.ReplayAlternating | backend/main.py:420 | A history without the system prompt never gains it back, however many exchanges follow. |
| Conversation.PromptLifetime | backend/main.py:420 | A history that starts with the system prompt keeps it exactly as long as the number of exchanges, stored and new, is at most four. |
| Conversation.PromptLastsFourExchanges | backend/main.py:268-270 | A call seeded with the system prompt keeps it at its head iff at most four exchanges have completed. |
| Conversation.ConversationStore.constructor | backend/main.py:107 | The store starts empty. |
| Conversation.ConversationStore.History | backend/main.py:411 | An unknown call SID reads as an empty history. Every stored history is well formed. |
| Conversation.ConversationStore.Seed | backend/main.py:268-270 | The call's history is replaced by the system prompt alone, and no other call changes. |
| Conversation.ConversationStore.RecordExchange | backend/main.py:418-420 | Only the call's history changes, to its next history, and the store's invariant is kept. |
| Twiml.GatherAction | backend/main.py:277 | No contract; its meaning is given by `GatherActionRoundTrip`: the process route reads back the call SID the action was built from. |
| Twiml.GatherActionRoundTrip | backend/main.py:275-280 | The gather action, read back through the process route's `call_sid` query parameter, yields the same call SID for any SID without a query metacharacter. |
| AudioFiles.Mp3Path | backend/main.py:162 | No contract; its meaning is given by `WavPathOfMp3`, `WavPathIsServed` and `AudioUrlServesWav`. |
| AudioFiles.WavPath | backend/main.py:168 | No contract; its meaning is given by `WavPathOfMp3` (the result ends in ".wav") and `WavPathIsServed`. |
| AudioFiles.ServedPath | backend/main.py:569 | No contract; its meaning is given by `WavPathIsServed` and `AudioUrlServesWav`: it is the file `serve_audio` reads for a name. |
| AudioFiles.AudioUrl | backend/main.py:480-482 | The audio URL is never empty, so the `if audio_url` test always passes when there is one. |
| AudioFiles.WavPathOfMp3 | backend/main.py:162-168 | The WAV path is the stem, with any ".mp3" inside it replaced, followed by ".wav". |
| PyText.ReplaceMp3Suffix | backend/main.py:168 | Replacing ".mp3" in a name that ends in ".mp3" turns that ending into ".wav". No replacement straddles the join. |
| AudioFiles.WavPathIsServed | backend/main.py:569 | When the stem holds no ".mp3", the WAV file is the file the audio route serves for `tts_<sid>_<suffix>.wav`. |
| PyText.LowerByCharacter | backend/main.py:354 | Lower-casing maps each character on its own and leaves no upper-case ASCII letter. |
| PyText.BasenameOfJoin | backend/main.py:480 | The base name of a directory joined with a name without "/" is that name. |
| AudioFiles.AudioUrlServesWav | backend/main.py:479-482 | If neither the call SID nor the random suffix holds a "/", and the path before ".mp3" holds no other ".mp3", then three things follow. The WAV file lies directly in the output directory, under `tts_<sid>_<suffix>.wav`. The audio URL is the base URL without trailing "/", then "/api/voice/audio/", then that name. The audio route serves that very file. The hypotheses are needed: a SID with a "/" makes synthesis write into a sub-directory, while the URL keeps only the base name, so the audio route would not find the file. |
| Backend.MentionsTimeout | backend/main.py:141-144 | No contract; its meaning is given by `GetLlmResponse` and `FailureReply`. |
| Backend.GetLlmResponse | backend/main.py:120-148 | The result is an answer iff the completion succeeded, and the answer is the stripped content. A failure is marked as a timeout iff its lower-cased text mentions "timeout", "timed out" or "connection", or it already was a `TimeoutError`. Its text always ends with the original exception text. |
| Backend.SpokenReply | backend/main.py:440-455 | No contract; its meaning is given by `FailureReply` and `AnswerTurnResponse`. |
| Backend.FailureReply | backend/main.py:141-148 | A failed completion is spoken as the timeout apology iff its lower-cased text contains "timeout", "timed out" or "connection", or it already was a `TimeoutError`. Otherwise it is spoken as "I apologize, but I encountered an error: " followed by the text. |
| Backend.ClassifySpeech | backend/main.py:327-380 | The input is silence iff it is shorter than two characters once stripped. It is a failed recognition iff it is longer and its lower-cased stripped text is "error", "failed" or "timeout", so the listed "" can never match. Otherwise it is the stripped text. |
| Backend.GenerateTtsAudio | backend/main.py:151-174 | A WAV path is returned iff synthesis completed, and that path always ends in ".wav". |
| Backend.ReplyVerb | backend/main.py:479-524 | No contract; its meaning is given by `AnswerTurnResponse`. |
| Backend.AnswerTurn | backend/main.py:380-534 | No contract; its meaning is given by `AnswerTurnHistory` and `AnswerTurnResponse`. |
| Backend.SpeechTurn | backend/main.py:327-534 | No contract; it is the specification `ProcessSpeech` is proved against. Its meaning is given by `SilenceReprompts`, `SttFailureReprompts`, `UtteranceIsAnswered` and `EveryResponseListens`. |
| Backend.SilenceReprompts | backend/main.py:327-350 | Silence is answered by "I didn't hear anything. Please speak again." and a gather, with no completion call and no history change. |
| Backend.SttFailureReprompts | backend/main.py:354-377 | A failed recognition is answered by "I'm having trouble understanding. Please try again." and a gather, with no completion call and no history change. |
| Backend.UtteranceIsAnswered | backend/main.py:380-411 | Any other speech is answered as its stripped text. |
| Backend.AnswerTurnHistory | backend/main.py:411-467 | The completion is asked for after the call's history. A completion stores the next history, at most ten messages ending with the new pair. A failure stores nothing. |
| Backend.AnswerTurnResponse | backend/main.py:474-534 | The answer is exactly reply, gather, hangup. The reply is a `<Play>` of the WAV URL iff synthesis completed, and otherwise a `<Say>` of the answer or apology. |
| Backend.EveryResponseListens | backend/main.py:518-534 | Every response to speech holds the gather for the same call, and none plays audio that was not generated. |
| Backend.IncomingCall | backend/main.py:268-281 | The call's history becomes the system prompt alone. The answer is the greeting followed by the gather for the call. |
| Backend.ProcessSpeech | backend/main.py:327-534 | The message list sent, the response, and the store afterwards are those of the specification `SpeechTurn` over the call's history. The store's invariant is kept. |
| Backend.ChatEndpoint | backend/main.py:575-718 | No contract; its meaning is given by `ChatAnswers`. |
| Backend.ChatAnswers | backend/main.py:598-644 | A chat request sends exactly the system prompt and the message. It echoes the message with the stripped answer on success. On failure it reports the text that `get_llm_response` raised. |
| Backend.SetTwilioCredentials | backend/main.py:754-831 | The requests and the answer are those of `SetCredentialsAttempt`. The record takes all four new values on success and is left unchanged otherwise. |
| VoiceCallEndpoint.LlmReply | voicecallendpoint/main.py:189-199 | A failed completion is spoken as "Error: " followed by the exception text, with no timeout classification. |
| VoiceCallEndpoint.AudioUrlAfterTts | voicecallendpoint/main.py:211-275 | There is an audio URL iff synthesis completed, and that URL is never empty. |
| VoiceCallEndpoint.ReplyVerb | voicecallendpoint/main.py:299-304 | No contract; its meaning is given by `AnswerTurnResponse`. |
| VoiceCallEndpoint.AnswerTurn | voicecallendpoint/main.py:142-308 | No contract; its meaning is given by `AnswerTurnHistory` and `AnswerTurnResponse`. |
| VoiceCallEndpoint.SpeechTurn | voicecallendpoint/main.py:126-308 | No contract; it is the specification `ProcessSpeech` is proved against. Its meaning is given by `SilenceListensAgain` and `SpeechIsAnswered`. |
| VoiceCallEndpoint.SilenceListensAgain | voicecallendpoint/main.py:126-140 | Silence is answered by a gather alone, with no `<Say>`, no completion call and no history change. |
| VoiceCallEndpoint.SpeechIsAnswered | voicecallendpoint/main.py:142-177 | All other speech, "error" included, goes to the completion API stripped. |
| VoiceCallEndpoint.AnswerTurnHistory | voicecallendpoint/main.py:177-199 | The completion is asked for after the call's history. A completion stores the newest ten messages, ending with the new pair. An exception stores nothing. |
| VoiceCallEndpoint.AnswerTurnResponse | voicecallendpoint/main.py:211-308 | The answer is exactly reply, gather, hangup. It plays the WAV URL iff synthesis completed, and otherwise says the answer or "Error: " followed by the text. |
| VoiceCallEndpoint.IncomingCall | voicecallendpoint/main.py:107-113 | The call's history becomes the system prompt alone. The answer is the greeting followed by the gather for the call. |
| VoiceCallEndpoint.ProcessSpeech | voicecallendpoint/main.py:126-308 | The message list sent, the response, and the store afterwards are those of this file's `SpeechTurn`. The store's invariant is kept. |
| VoiceCallEndpoint.ChatEndpoint | voicecallendpoint/main.py:367-512 | No contract; its meaning is given by `ChatAnswers`. |
| VoiceCallEndpoint.ChatAnswers | voicecallendpoint/main.py:377-438 | A chat request sends exactly the system prompt and the message, and succeeds iff the completion did. It echoes the message with the stripped answer, or reports the bare exception text. `chat_endpoint_get` (451-512) is the same. |
| VoiceCallEndpoint.SetTwilioCredentials | voicecallendpoint/main.py:543-615 | The format checks run inline, then the fetch and the lookup. The requests and the answer are those of `SetCredentialsAttempt`, with this file's not-found text. The record changes, all four fields at once, only on success. |
| ApplicationsCompared.SameHistoryOutsideSttBranch | backend/main.py:354-420 | Outside the backend's failed-recognition branch, both applications send the same message list and store the same history. |
| ApplicationsCompared.ErrorTranscriptionDiffers | backend/main.py:354-377 | Speech heard as "Error" gets the backend's whole answer: the trouble-understanding re-prompt and a gather, with no completion call and no change to the history. The voice-call application instead sends "Error" to the completion API after the call's history (voicecallendpoint/main.py:142-177). |
| ApplicationsCompared.ChatErrorsCompared | backend/main.py:141-148 | A chat failure that mentions a timeout is reported by the backend with the "LLM request timed out: " prefix and by the voice-call application as the bare text. Any other failure is reported alike. |

## Left out

- Logging: `log.*` calls, `JSONLogger` and its log file are observability only and are not modelled.
- FastAPI plumbing: routing, form and query parsing, CORS and the `__main__` block are not modelled. Query parsing is modelled only as far as reading `call_sid` back from the gather action, without percent-decoding.
- TwiML serialization is not modelled. Responses are sequences of verbs, and the fixed attributes (voice "alice", speech input, POST, automatic speech timeout) are not recorded.
- External services: the completion call, gTTS synthesis, the pydub conversion and the Twilio client are not modelled. Their outcomes are parameters, and their parameters (model, temperature, token limit) are not recorded.
- Filesystem: `os.makedirs`, writing the MP3 and WAV files, and the existence check of `serve_audio` are not modelled. Only the path the audio route reads is modelled.
- Randomness and clocks: the `os.urandom(4).hex()` suffix is a parameter, and the `datetime.now()` durations are used only for logging.
- Concurrency: the handlers are modelled as sequential steps. Interleaved updates of the shared `conversations` dict are not modelled.
- The outer `except` of `set_twilio_credentials` is not modelled. It answers "Error: " followed by the text, and nothing outside the inner `try` can raise for string inputs.
- The `root` and `status` routes are not modelled. They return constant JSON.
- PyText.Lower: lower-cases ASCII letters only, because Python's full Unicode case mapping is out of scope. This matters only for the two non-ASCII characters that lower-case into ASCII.
- A completion whose content is not a string, so that `.strip()` raises, is not modelled separately. It is part of the `Raised` outcome.
