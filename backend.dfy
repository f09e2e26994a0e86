/** The backend application (backend/main.py): voice webhooks, chat endpoints and the
    credential endpoints, with the completion call, speech synthesis and the Twilio REST API
    replaced by their outcomes. */
module Backend {
  import opened Wrappers
  import opened PyText
  import opened Twiml
  import opened AudioFiles
  import opened Services
  import opened Conversation
  import opened TwilioCredentials

  const SilenceReprompt := "I didn't hear anything. Please speak again."
  const SttFailureReprompt := "I'm having trouble understanding. Please try again."
  const TimeoutApology := "I apologize, but the request timed out. Please try again."
  const ErrorApologyPrefix := "I apologize, but I encountered an error: "
  const TimeoutErrorPrefix := "LLM request timed out: "
  const PhoneNotFoundSuffix := " not found in your Twilio account."

  /** The transcriptions the backend treats as a failed speech recognition. */
  const SttFailureWords: seq<string> := ["", "error", "failed", "timeout"]

  /** The timeout test of `get_llm_response` on the lower-cased error text. */
  predicate MentionsTimeout(message: string) {
    var m := Lower(message);
    Contains(m, "timeout") || Contains(m, "timed out") || Contains(m, "connection")
  }

  /** What `get_llm_response` returns or raises: the stripped content, or an exception with
      its text and whether it is a `TimeoutError`. */
  datatype LlmResult = Answer(text: string) | LlmFailure(error: string, timedOut: bool)

  /** `get_llm_response`: a failure whose text mentions a timeout is raised again as a
      `TimeoutError` with a prefixed text; any other failure is raised as it was. */
  function GetLlmResponse(llm: LlmOutcome): (r: LlmResult)
    ensures r.Answer? <==> llm.Completion?
    ensures llm.Completion? ==> r.text == Strip(llm.content)
    ensures llm.Raised? ==> (r.timedOut <==> MentionsTimeout(llm.message) || llm.isTimeoutError)
    ensures llm.Raised? ==> |r.error| >= |llm.message| && r.error[|r.error| - |llm.message|..] == llm.message
  {
    match llm
    case Completion(content) => Answer(Strip(content))
    case Raised(message, isTimeoutError) =>
      if MentionsTimeout(message) then LlmFailure(TimeoutErrorPrefix + message, true)
      else LlmFailure(message, isTimeoutError)
  }

  /** The reply `process_speech` speaks: the answer, or the apology its `except` clauses
      choose. */
  function SpokenReply(result: LlmResult): string {
    match result
    case Answer(text) => text
    case LlmFailure(error, timedOut) => if timedOut then TimeoutApology else ErrorApologyPrefix + error
  }

  /** A failed completion is spoken as the fixed timeout apology exactly when its text
      mentions a timeout or it already was a `TimeoutError`; otherwise the apology carries
      the original error text. */
  lemma FailureReply(message: string, isTimeoutError: bool)
    ensures SpokenReply(GetLlmResponse(Raised(message, isTimeoutError)))
         == if MentionsTimeout(message) || isTimeoutError then TimeoutApology
            else ErrorApologyPrefix + message
  {
  }

  /** How `process_speech` reads the `SpeechResult` form field. */
  datatype SpeechInput = NoSpeech | SttFailure | Utterance(text: string)

  function ClassifySpeech(speech: string): (r: SpeechInput)
    ensures r.NoSpeech? <==> |Strip(speech)| < 2
    ensures r.SttFailure? <==> |Strip(speech)| >= 2 && Lower(Strip(speech)) in ["error", "failed", "timeout"]
    ensures r.Utterance? ==> r.text == Strip(speech) && |r.text| >= 2
  {
    if speech == [] || |Strip(speech)| < 2 then NoSpeech
    else if Lower(Strip(speech)) in SttFailureWords then SttFailure
    else Utterance(Strip(speech))
  }

  /** `generate_tts_audio`: the WAV path when synthesis completed, `None` otherwise. */
  function GenerateTtsAudio(tts: TtsOutcome, audioDir: string, callSid: string, suffix: string): (r: Option<string>)
    ensures r.Some? <==> tts.Synthesized?
    ensures r.Some? ==> |r.value| >= 4 && r.value[|r.value| - 4..] == ".wav"
  {
    WavPathOfMp3(audioDir, callSid, suffix);
    if tts.Synthesized? then Some(WavPath(Mp3Path(audioDir, callSid, suffix))) else None
  }

  /** `<Play>` of the generated audio when there is a WAV path, `<Say>` of the reply
      otherwise. */
  function ReplyVerb(reply: string, wavPath: Option<string>, baseUrl: string): Verb {
    if wavPath.Some? && wavPath.value != [] then Play(AudioUrl(baseUrl, wavPath.value)) else Say(reply)
  }

  /** What `process_speech` does with an utterance `text`: it asks for a completion after
      the call's history and answers with the reply, a gather and a hangup. */
  function AnswerTurn(history: seq<Message>, callSid: string, text: string, llm: LlmOutcome,
                      tts: TtsOutcome, baseUrl: string, audioDir: string, suffix: string): Turn
  {
    var result := GetLlmResponse(llm);
    var stored := if result.Answer? then Some(NextHistory(history, text, result.text)) else None;
    var wavPath := GenerateTtsAudio(tts, audioDir, callSid, suffix);
    Turn(Some(history + [Message(User, text)]), stored,
         [ReplyVerb(SpokenReply(result), wavPath, baseUrl), Gather(GatherAction(callSid)), Hangup])
  }

  /** What one request to `process_speech` does, given the call's stored history. */
  function SpeechTurn(history: seq<Message>, callSid: string, speech: string, llm: LlmOutcome,
                      tts: TtsOutcome, baseUrl: string, audioDir: string, suffix: string): Turn
  {
    match ClassifySpeech(speech)
    case NoSpeech => Turn(None, None, [Say(SilenceReprompt), Gather(GatherAction(callSid))])
    case SttFailure => Turn(None, None, [Say(SttFailureReprompt), Gather(GatherAction(callSid))])
    case Utterance(text) => AnswerTurn(history, callSid, text, llm, tts, baseUrl, audioDir, suffix)
  }

  /** Silence, or speech shorter than two characters once stripped, is met by a re-prompt:
      no completion call, no change to the history, whatever the services would answer. */
  lemma SilenceReprompts(history: seq<Message>, callSid: string, speech: string, llm: LlmOutcome,
                         tts: TtsOutcome, baseUrl: string, audioDir: string, suffix: string)
    requires |Strip(speech)| < 2
    ensures SpeechTurn(history, callSid, speech, llm, tts, baseUrl, audioDir, suffix)
         == Turn(None, None, [Say(SilenceReprompt), Gather(GatherAction(callSid))])
  {
  }

  /** A transcription that reads "error", "failed" or "timeout" (any case, any surrounding
      whitespace) is met by the trouble-understanding prompt: no completion call, no change
      to the history. */
  lemma SttFailureReprompts(history: seq<Message>, callSid: string, speech: string, llm: LlmOutcome,
                            tts: TtsOutcome, baseUrl: string, audioDir: string, suffix: string)
    requires |Strip(speech)| >= 2 && Lower(Strip(speech)) in ["error", "failed", "timeout"]
    ensures SpeechTurn(history, callSid, speech, llm, tts, baseUrl, audioDir, suffix)
         == Turn(None, None, [Say(SttFailureReprompt), Gather(GatherAction(callSid))])
  {
  }

  /** Any other transcription is answered, stripped, through the completion API. */
  lemma UtteranceIsAnswered(history: seq<Message>, callSid: string, speech: string, llm: LlmOutcome,
                            tts: TtsOutcome, baseUrl: string, audioDir: string, suffix: string)
    requires |Strip(speech)| >= 2 && Lower(Strip(speech)) !in ["error", "failed", "timeout"]
    ensures SpeechTurn(history, callSid, speech, llm, tts, baseUrl, audioDir, suffix)
         == AnswerTurn(history, callSid, Strip(speech), llm, tts, baseUrl, audioDir, suffix)
  {
  }

  /** An utterance is sent to the completion API after the call's history; a completed
      answer stores the newest ten messages, which end with the new exchange, and a failed
      one leaves the history alone. */
  lemma AnswerTurnHistory(history: seq<Message>, callSid: string, text: string, llm: LlmOutcome,
                          tts: TtsOutcome, baseUrl: string, audioDir: string, suffix: string)
    ensures var t := AnswerTurn(history, callSid, text, llm, tts, baseUrl, audioDir, suffix);
            && t.prompt == Some(history + [Message(User, text)])
            && (llm.Raised? ==> t.stored == None)
            && (llm.Completion? ==>
                  && t.stored == Some(NextHistory(history, text, Strip(llm.content)))
                  && |t.stored.value| <= HistoryLimit
                  && t.stored.value[|t.stored.value| - 2..]
                     == [Message(User, text), Message(Assistant, Strip(llm.content))])
  {
  }

  /** The answer to an utterance is the reply, the gather that listens again, and a hangup;
      the reply is played from the generated audio exactly when synthesis completed and is
      otherwise spoken by Twilio. */
  lemma AnswerTurnResponse(history: seq<Message>, callSid: string, text: string, llm: LlmOutcome,
                           tts: TtsOutcome, baseUrl: string, audioDir: string, suffix: string)
    ensures var r := AnswerTurn(history, callSid, text, llm, tts, baseUrl, audioDir, suffix).response;
            && |r| == 3 && r[1] == Gather(GatherAction(callSid)) && r[2] == Hangup
            && (r[0].Play? <==> tts.Synthesized?)
            && (tts.Synthesized? ==> r[0] == Play(AudioUrl(baseUrl, WavPath(Mp3Path(audioDir, callSid, suffix)))))
            && (tts.SynthesisFailed? ==> r[0] == Say(SpokenReply(GetLlmResponse(llm))))
  {
    WavPathOfMp3(audioDir, callSid, suffix);
  }

  /** Every response listens again on the same call, and none plays audio that was not
      generated. */
  lemma EveryResponseListens(history: seq<Message>, callSid: string, speech: string, llm: LlmOutcome,
                             tts: TtsOutcome, baseUrl: string, audioDir: string, suffix: string)
    ensures var r := SpeechTurn(history, callSid, speech, llm, tts, baseUrl, audioDir, suffix).response;
            && Gather(GatherAction(callSid)) in r
            && forall v :: v in r && v.Play? ==> tts.Synthesized?
  {
    match ClassifySpeech(speech)
    case NoSpeech =>
    case SttFailure =>
    case Utterance(text) =>
      AnswerTurnResponse(history, callSid, text, llm, tts, baseUrl, audioDir, suffix);
  }

  /** `incoming_call`: any history of the call is replaced by the system prompt alone, and
      the caller is greeted and listened to. */
  method IncomingCall(store: ConversationStore, callSid: string) returns (response: seq<Verb>)
    requires store.Valid()
    modifies store
    ensures store.Valid()
    ensures store.conversations == old(store.conversations)[callSid := [SystemMessage]]
    ensures response == [Say(Greeting), Gather(GatherAction(callSid))]
  {
    store.Seed(callSid);
    response := [Say(Greeting)];
    response := response + [Gather(GatherAction(callSid))];
  }

  /** `process_speech`: returns the message list sent to the completion API (`None` when
      no call is made) and the verbs of the TwiML response. */
  method ProcessSpeech(store: ConversationStore, callSid: string, speech: string, llm: LlmOutcome,
                       tts: TtsOutcome, baseUrl: string, audioDir: string, suffix: string)
    returns (prompt: Option<seq<Message>>, response: seq<Verb>)
    requires store.Valid()
    modifies store
    ensures store.Valid()
    ensures var t := SpeechTurn(old(store.History(callSid)), callSid, speech, llm, tts, baseUrl, audioDir, suffix);
            && prompt == t.prompt && response == t.response
            && store.conversations == if t.stored.Some? then old(store.conversations)[callSid := t.stored.value]
                                      else old(store.conversations)
  {
    ghost var history := store.History(callSid);
    var gather := Gather(GatherAction(callSid));
    if speech == [] || |Strip(speech)| < 2 {
      SilenceReprompts(history, callSid, speech, llm, tts, baseUrl, audioDir, suffix);
      return None, [Say(SilenceReprompt), gather];
    }
    if Lower(Strip(speech)) in SttFailureWords {
      assert Lower(Strip(speech)) != [];
      SttFailureReprompts(history, callSid, speech, llm, tts, baseUrl, audioDir, suffix);
      return None, [Say(SttFailureReprompt), gather];
    }
    var userText := Strip(speech);
    UtteranceIsAnswered(history, callSid, speech, llm, tts, baseUrl, audioDir, suffix);
    AnswerTurnHistory(history, callSid, userText, llm, tts, baseUrl, audioDir, suffix);
    AnswerTurnResponse(history, callSid, userText, llm, tts, baseUrl, audioDir, suffix);
    var messages := store.History(callSid) + [Message(User, userText)];
    prompt := Some(messages);
    var aiResponse: string;
    var result := GetLlmResponse(llm);
    match result {
      case Answer(text) =>
        aiResponse := text;
        store.RecordExchange(callSid, userText, aiResponse);
      case LlmFailure(error, timedOut) =>
        aiResponse := if timedOut then TimeoutApology else ErrorApologyPrefix + error;
    }
    var wavPath := GenerateTtsAudio(tts, audioDir, callSid, suffix);
    var reply: Verb;
    if wavPath.Some? && wavPath.value != [] {
      reply := Play(AudioUrl(baseUrl, wavPath.value));
    } else {
      reply := Say(aiResponse);
    }
    response := [reply, gather, Hangup];
  }

  /** `chat_endpoint` and `chat_endpoint_get`: one completion over the system prompt and the
      message, with no conversation store involved. */
  function ChatEndpoint(message: string, llm: LlmOutcome, model: string): ChatExchange {
    var prompt := [SystemMessage, Message(User, message)];
    match GetLlmResponse(llm)
    case Answer(text) => ChatExchange(prompt, ChatSuccess(message, text, model))
    case LlmFailure(error, _) => ChatExchange(prompt, ChatError(error))
  }

  /** A chat request sends exactly the system prompt and the message, echoes the message
      on success, and reports a failure by the text of the exception that reached it. */
  lemma ChatAnswers(message: string, llm: LlmOutcome, model: string)
    ensures var x := ChatEndpoint(message, llm, model);
            && x.prompt == [SystemMessage, Message(User, message)]
            && (llm.Completion? ==> x.reply == ChatSuccess(message, Strip(llm.content), model))
            && (llm.Raised? ==> x.reply == ChatError(if MentionsTimeout(llm.message) then TimeoutErrorPrefix + llm.message
                                                     else llm.message))
  {
  }

  /** `set_twilio_credentials` on the module-level credential record: the record is written,
      all four fields at once, only when the answer is a success. */
  method SetTwilioCredentials(store: CredentialStore, sid: string, token: string, phone: string,
                              fetch: AccountFetch, lookup: PhoneLookup)
    returns (calls: seq<TwilioCall>, response: SetResponse)
    requires store.Valid()
    modifies store
    ensures store.Valid()
    ensures SetAttempt(calls, response) == SetCredentialsAttempt(sid, token, phone, fetch, lookup, PhoneNotFoundSuffix)
    ensures response.Stored? ==> store.accountSid == sid && store.authToken == token
                                 && store.phoneNumber == phone && store.uiSet
    ensures response.Rejected? ==> unchanged(store)
  {
    var check := ValidateFormat(sid, token, phone);
    if check.FormatError? {
      return [], Rejected(check.message);
    }
    calls := [FetchAccount(sid)];
    match fetch {
      case FetchRaised(message) =>
        return calls, Rejected(TwilioErrorMessage(message));
      case AccountFalsy =>
        return calls, Rejected(AccountFetchError);
      case AccountFound =>
    }
    calls := calls + [ListIncomingNumbers(phone)];
    if lookup.NumberNotListed? {
      return calls, Rejected("Phone number " + phone + PhoneNotFoundSuffix);
    }
    store.Store(sid, token, phone);
    response := Stored(StoredMessage);
  }
}
