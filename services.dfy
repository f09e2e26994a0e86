/** What the external services answered. The hosted completion call and gTTS synthesis are
    not modelled; each handler receives their outcome as a parameter. */
module Services {

  /** The completion call either returned a message whose content is `content`, or raised an
      exception whose text is `message`; `isTimeoutError` says whether that exception already
      was a Python `TimeoutError`. */
  datatype LlmOutcome = Completion(content: string) | Raised(message: string, isTimeoutError: bool)

  /** Whether gTTS synthesis, the MP3 save and the WAV conversion all completed. */
  datatype TtsOutcome = Synthesized | SynthesisFailed
}
