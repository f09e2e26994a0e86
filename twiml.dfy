/** The TwiML verbs the voice handlers emit, and the URL that routes the next utterance of a
    call back to the process handler. */
module Twiml {
  import opened Wrappers

  /** One verb of a `<Response>`; the fixed attributes (voice "alice", speech input, POST,
      automatic speech timeout) are the same on every verb of its kind and are not recorded. */
  datatype Verb = Say(text: string) | Play(url: string) | Gather(action: string) | Hangup

  const Greeting := "Hello! Please speak."

  const ProcessRoute := "/api/voice/process?call_sid="

  /** The action of every `<Gather>`: Twilio posts the call's next utterance there. */
  function GatherAction(callSid: string): string {
    ProcessRoute + callSid
  }

  /** The value of a query parameter: everything up to the first '&' or '#'. */
  function ParamValue(s: string): (r: string)
    ensures r <= s
    ensures '&' !in r && '#' !in r
    ensures |r| == |s| || s[|r|] == '&' || s[|r|] == '#'
  {
    if s == [] || s[0] == '&' || s[0] == '#' then [] else [s[0]] + ParamValue(s[1..])
  }

  /** The `call_sid` query parameter the process route reads from a request to `action`,
      if `action` is a request to the process route at all. Percent-decoding is not modelled. */
  function QueryCallSid(action: string): Option<string> {
    if ProcessRoute <= action then Some(ParamValue(action[|ProcessRoute|..])) else None
  }

  /** A call SID that reads back unchanged from a query string. */
  predicate QuerySafe(callSid: string) {
    forall i :: 0 <= i < |callSid| ==> callSid[i] !in "&#%+"
  }

  /** The gather action routes the next utterance back to the same call SID, and so to the
      same conversation history, whenever the SID has no query-string metacharacter. */
  lemma GatherActionRoundTrip(callSid: string)
    requires QuerySafe(callSid)
    ensures QueryCallSid(GatherAction(callSid)) == Some(callSid)
  {
    var action := GatherAction(callSid);
    assert action[..|ProcessRoute|] == ProcessRoute;
    assert action[|ProcessRoute|..] == callSid;
    var v := ParamValue(callSid);
    assert v == callSid[..|v|] == callSid;
  }
}
