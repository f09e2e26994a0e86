/** The stand-alone voice-call application (voicecallendpoint/main.py): the same routes as
    the backend, with the completion call made in the handler itself, no check for failed
    speech recognition and the exception text spoken or returned as it is. */
module VoiceCallEndpoint {
  import opened Wrappers
  import opened PyText
  import opened Twiml
  import opened AudioFiles
  import opened Services
  import opened Conversation
  import opened TwilioCredentials

  const ErrorReplyPrefix := "Error: "
  const PhoneNotFoundSuffix := " not found in your Twilio account." + " Please verify the number."

  /** The text `process_speech` goes on with after the completion call: the stripped
      content, or "Error: " followed by the exception text. */
  function LlmReply(llm: LlmOutcome): (r: string)
    ensures llm.Raised? ==> ErrorReplyPrefix <= r && r[|ErrorReplyPrefix|..] == llm.message
  {
    match llm
    case Completion(content) => Strip(content)
    case Raised(message, _) => ErrorReplyPrefix + message
  }

  /** `audio_url` after the synthesis `try`: the URL of the WAV file, or `None` when any
      step of the synthesis raised. */
  function AudioUrlAfterTts(tts: TtsOutcome, baseUrl: string, audioDir: string, callSid: string, suffix: string): (r: Option<string>)
    ensures r.Some? <==> tts.Synthesized?
    ensures r.Some? ==> r.value != []
  {
    if tts.Synthesized? then Some(AudioUrl(baseUrl, WavPath(Mp3Path(audioDir, callSid, suffix)))) else None
  }

  /** `<Play>` when `audio_url` is truthy, `<Say>` of the reply otherwise. */
  function ReplyVerb(reply: string, audioUrl: Option<string>): Verb {
    if audioUrl.Some? && audioUrl.value != [] then Play(audioUrl.value) else Say(reply)
  }

  /** What `process_speech` does with an utterance `text`. */
  function AnswerTurn(history: seq<Message>, callSid: string, text: string, llm: LlmOutcome,
                      tts: TtsOutcome, baseUrl: string, audioDir: string, suffix: string): Turn
  {
    var stored := if llm.Completion? then Some(NextHistory(history, text, Strip(llm.content))) else None;
    Turn(Some(history + [Message(User, text)]), stored,
         [ReplyVerb(LlmReply(llm), AudioUrlAfterTts(tts, baseUrl, audioDir, callSid, suffix)),
          Gather(GatherAction(callSid)), Hangup])
  }

  /** What one request to `process_speech` does, given the call's stored history. */
  function SpeechTurn(history: seq<Message>, callSid: string, speech: string, llm: LlmOutcome,
                      tts: TtsOutcome, baseUrl: string, audioDir: string, suffix: string): Turn
  {
    if speech == [] || |Strip(speech)| < 2 then Turn(None, None, [Gather(GatherAction(callSid))])
    else AnswerTurn(history, callSid, Strip(speech), llm, tts, baseUrl, audioDir, suffix)
  }

  /** Silence, or speech shorter than two characters once stripped, is met by listening
      again without a word: no completion call, no change to the history. */
  lemma SilenceListensAgain(history: seq<Message>, callSid: string, speech: string, llm: LlmOutcome,
                            tts: TtsOutcome, baseUrl: string, audioDir: string, suffix: string)
    requires |Strip(speech)| < 2
    ensures SpeechTurn(history, callSid, speech, llm, tts, baseUrl, audioDir, suffix)
         == Turn(None, None, [Gather(GatherAction(callSid))])
  {
  }

  /** Everything else, whatever it reads, goes to the completion API stripped. */
  lemma SpeechIsAnswered(history: seq<Message>, callSid: string, speech: string, llm: LlmOutcome,
                         tts: TtsOutcome, baseUrl: string, audioDir: string, suffix: string)
    requires |Strip(speech)| >= 2
    ensures SpeechTurn(history, callSid, speech, llm, tts, baseUrl, audioDir, suffix)
         == AnswerTurn(history, callSid, Strip(speech), llm, tts, baseUrl, audioDir, suffix)
  {
  }

  /** An utterance is sent after the call's history; a completed answer stores the newest
      ten messages, which end with the new exchange, and a failed one leaves the history
      alone. */
  lemma AnswerTurnHistory(history: seq<Message>, callSid: string, text: string, llm: LlmOutcome,
                          tts: TtsOutcome, baseUrl: string, audioDir: string, suffix: string)
    ensures var t := AnswerTurn(history, callSid, text, llm, tts, baseUrl, audioDir, suffix);
            && t.prompt == Some(history + [Message(User, text)])
            && (llm.Raised? ==> t.stored == None)
            && (llm.Completion? ==>
                  && t.stored == Some(NextHistory(history, text, Strip(llm.content)))
                  && |t.stored.value| <= HistoryLimit
                  && t.stored.value[|t.stored.value| - 2..]
                     == [Message(User, text), Message(Assistant, Strip(llm.content))])
  {
  }

  /** The answer is the reply, the gather that listens again, and a hangup; the reply is
      played from the generated audio exactly when synthesis completed, and otherwise
      Twilio speaks the answer or the "Error: " text. */
  lemma AnswerTurnResponse(history: seq<Message>, callSid: string, text: string, llm: LlmOutcome,
                           tts: TtsOutcome, baseUrl: string, audioDir: string, suffix: string)
    ensures var r := AnswerTurn(history, callSid, text, llm, tts, baseUrl, audioDir, suffix).response;
            && |r| == 3 && r[1] == Gather(GatherAction(callSid)) && r[2] == Hangup
            && (r[0].Play? <==> tts.Synthesized?)
            && (tts.Synthesized? ==> r[0] == Play(AudioUrl(baseUrl, WavPath(Mp3Path(audioDir, callSid, suffix)))))
            && (tts.SynthesisFailed? && llm.Completion? ==> r[0] == Say(Strip(llm.content)))
            && (tts.SynthesisFailed? && llm.Raised? ==> r[0] == Say(ErrorReplyPrefix + llm.message))
  {
    var url := AudioUrlAfterTts(tts, baseUrl, audioDir, callSid, suffix);
    if tts.Synthesized? {
      assert ReplyVerb(LlmReply(llm), url) == Play(url.value);
    } else {
      assert ReplyVerb(LlmReply(llm), url) == Say(LlmReply(llm));
    }
  }

  /** `incoming_call`: any history of the call is replaced by the system prompt alone, and
      the caller is greeted and listened to. */
  method IncomingCall(store: ConversationStore, callSid: string) returns (response: seq<Verb>)
    requires store.Valid()
    modifies store
    ensures store.Valid()
    ensures store.conversations == old(store.conversations)[callSid := [SystemMessage]]
    ensures response == [Say(Greeting), Gather(GatherAction(callSid))]
  {
    store.Seed(callSid);
    response := [Say(Greeting), Gather(GatherAction(callSid))];
  }

  /** `process_speech`: returns the message list sent to the completion API (`None` when
      no call is made) and the verbs of the TwiML response. */
  method ProcessSpeech(store: ConversationStore, callSid: string, speech: string, llm: LlmOutcome,
                       tts: TtsOutcome, baseUrl: string, audioDir: string, suffix: string)
    returns (prompt: Option<seq<Message>>, response: seq<Verb>)
    requires store.Valid()
    modifies store
    ensures store.Valid()
    ensures var t := SpeechTurn(old(store.History(callSid)), callSid, speech, llm, tts, baseUrl, audioDir, suffix);
            && prompt == t.prompt && response == t.response
            && store.conversations == if t.stored.Some? then old(store.conversations)[callSid := t.stored.value]
                                      else old(store.conversations)
  {
    ghost var history := store.History(callSid);
    if speech == [] || |Strip(speech)| < 2 {
      SilenceListensAgain(history, callSid, speech, llm, tts, baseUrl, audioDir, suffix);
      return None, [Gather(GatherAction(callSid))];
    }
    var userText := Strip(speech);
    SpeechIsAnswered(history, callSid, speech, llm, tts, baseUrl, audioDir, suffix);
    var messages := store.History(callSid) + [Message(User, userText)];
    prompt := Some(messages);
    var aiResponse: string;
    match llm {
      case Completion(content) =>
        aiResponse := Strip(content);
        store.RecordExchange(callSid, userText, aiResponse);
      case Raised(message, _) =>
        aiResponse := ErrorReplyPrefix + message;
    }
    var audioUrl: Option<string>;
    if tts.Synthesized? {
      var wavPath := WavPath(Mp3Path(audioDir, callSid, suffix));
      audioUrl := Some(RStripChar(baseUrl, '/') + AudioRoute + Basename(wavPath));
    } else {
      audioUrl := None;
    }
    var reply: Verb;
    if audioUrl.Some? && audioUrl.value != [] {
      reply := Play(audioUrl.value);
    } else {
      reply := Say(aiResponse);
    }
    response := [reply, Gather(GatherAction(callSid)), Hangup];
  }

  /** `chat_endpoint` and `chat_endpoint_get`: one completion over the system prompt and the
      message, with no conversation store involved. */
  function ChatEndpoint(message: string, llm: LlmOutcome, model: string): ChatExchange {
    var prompt := [SystemMessage, Message(User, message)];
    match llm
    case Completion(content) => ChatExchange(prompt, ChatSuccess(message, Strip(content), model))
    case Raised(error, _) => ChatExchange(prompt, ChatError(error))
  }

  /** A chat request sends exactly the system prompt and the message, echoes the message on
      success, and reports a failure by the exception text alone, a timeout included. */
  lemma ChatAnswers(message: string, llm: LlmOutcome, model: string)
    ensures var x := ChatEndpoint(message, llm, model);
            && x.prompt == [SystemMessage, Message(User, message)]
            && (x.reply.ChatSuccess? <==> llm.Completion?)
            && (llm.Completion? ==> x.reply == ChatSuccess(message, Strip(llm.content), model))
            && (llm.Raised? ==> x.reply == ChatError(llm.message))
  {
  }

  /** `set_twilio_credentials` on the module-level credential record: the record is written,
      all four fields at once, only when the answer is a success. */
  method SetTwilioCredentials(store: CredentialStore, sid: string, token: string, phone: string,
                              fetch: AccountFetch, lookup: PhoneLookup)
    returns (calls: seq<TwilioCall>, response: SetResponse)
    requires store.Valid()
    modifies store
    ensures store.Valid()
    ensures SetAttempt(calls, response) == SetCredentialsAttempt(sid, token, phone, fetch, lookup, PhoneNotFoundSuffix)
    ensures response.Stored? ==> store.accountSid == sid && store.authToken == token
                                 && store.phoneNumber == phone && store.uiSet
    ensures response.Rejected? ==> unchanged(store)
  {
    if !("AC" <= sid) || |sid| < 30 {
      return [], Rejected(SidFormatError);
    }
    if |token| < 30 {
      return [], Rejected(TokenFormatError);
    }
    if !("+" <= phone) || |phone| < 10 {
      return [], Rejected(PhoneFormatError);
    }
    calls := [FetchAccount(sid)];
    match fetch {
      case FetchRaised(message) =>
        return calls, Rejected(TwilioErrorMessage(message));
      case AccountFalsy =>
        return calls, Rejected(AccountFetchError);
      case AccountFound =>
    }
    calls := calls + [ListIncomingNumbers(phone)];
    if lookup.NumberNotListed? {
      return calls, Rejected("Phone number " + phone + PhoneNotFoundSuffix);
    }
    store.Store(sid, token, phone);
    response := Stored(StoredMessage);
  }
}
