/** The backend and the stand-alone voice-call application side by side: where a request
    to one is handled as it is by the other, and where they part. */
module ApplicationsCompared {
  import opened Wrappers
  import opened PyText
  import opened Services
  import opened Twiml
  import opened Conversation
  import Backend
  import VoiceCallEndpoint

  /** Outside the backend's failed-recognition branch, both applications ask the completion
      API the same thing and keep the same history afterwards. */
  lemma SameHistoryOutsideSttBranch(history: seq<Message>, callSid: string, speech: string, llm: LlmOutcome,
                                    tts: TtsOutcome, baseUrl: string, audioDir: string, suffix: string)
    requires |Strip(speech)| < 2 || Lower(Strip(speech)) !in ["error", "failed", "timeout"]
    ensures var b := Backend.SpeechTurn(history, callSid, speech, llm, tts, baseUrl, audioDir, suffix);
            var v := VoiceCallEndpoint.SpeechTurn(history, callSid, speech, llm, tts, baseUrl, audioDir, suffix);
            b.prompt == v.prompt && b.stored == v.stored
  {
    if |Strip(speech)| >= 2 {
      Backend.UtteranceIsAnswered(history, callSid, speech, llm, tts, baseUrl, audioDir, suffix);
      VoiceCallEndpoint.SpeechIsAnswered(history, callSid, speech, llm, tts, baseUrl, audioDir, suffix);
    }
  }

  /** A caller heard as "Error" is re-prompted by the backend without a completion call,
      while the voice-call application sends the word to the completion API. */
  lemma ErrorTranscriptionDiffers(history: seq<Message>, callSid: string, llm: LlmOutcome,
                                  tts: TtsOutcome, baseUrl: string, audioDir: string, suffix: string)
    ensures Backend.SpeechTurn(history, callSid, "Error", llm, tts, baseUrl, audioDir, suffix)
         == Turn(None, None, [Say(Backend.SttFailureReprompt), Gather(GatherAction(callSid))])
    ensures VoiceCallEndpoint.SpeechTurn(history, callSid, "Error", llm, tts, baseUrl, audioDir, suffix).prompt
         == Some(history + [Message(User, "Error")])
  {
    assert StripLeading("Error") == "Error";
    assert StripTrailing("Error") == "Error";
    assert Lower("Error") == "error" by {
      assert LowerChar('E') == 'e';
    }
    Backend.SttFailureReprompts(history, callSid, "Error", llm, tts, baseUrl, audioDir, suffix);
    VoiceCallEndpoint.SpeechIsAnswered(history, callSid, "Error", llm, tts, baseUrl, audioDir, suffix);
  }

  /** A chat failure whose text mentions a timeout is reported by the backend with the
      timeout prefix, and by the voice-call application as the bare text; any other failure
      is reported alike. */
  lemma ChatErrorsCompared(message: string, error: string, isTimeoutError: bool, model: string)
    ensures var b := Backend.ChatEndpoint(message, Raised(error, isTimeoutError), model).reply;
            var v := VoiceCallEndpoint.ChatEndpoint(message, Raised(error, isTimeoutError), model).reply;
            && b.ChatError? && v.ChatError? && v.error == error
            && (Backend.MentionsTimeout(error) ==> b.error == Backend.TimeoutErrorPrefix + error)
            && (!Backend.MentionsTimeout(error) ==> b == v)
  {
  }
}
