/** The per-call conversation store: role-tagged messages kept per call SID and cut to the
    newest ten after every completed exchange. */
module Conversation {
  import opened Wrappers
  import opened PyText
  import opened Twiml

  datatype Role = System | User | Assistant

  datatype Message = Message(role: Role, content: string)

  const SystemPrompt := "You are a helpful AI assistant. Keep responses concise."

  const SystemMessage := Message(System, SystemPrompt)

  /** `CONVERSATION_HISTORY_LIMIT`, written as the literal `10` in the voice-call endpoint. */
  const HistoryLimit := 10

  /** The history stored after a completed exchange: `(history + [user, assistant])[-10:]`. */
  function NextHistory(history: seq<Message>, userText: string, reply: string): (h: seq<Message>)
    ensures |h| == if |history| + 2 <= HistoryLimit then |history| + 2 else HistoryLimit
    ensures h[|h| - 2..] == [Message(User, userText), Message(Assistant, reply)]
    ensures h == (history + [Message(User, userText), Message(Assistant, reply)])[|history| + 2 - |h|..]
  {
    TakeLast(history + [Message(User, userText), Message(Assistant, reply)], HistoryLimit)
  }

  /** User and assistant messages strictly alternate, starting with a user message and
      ending with an assistant message. */
  predicate Alternating(h: seq<Message>) {
    && |h| % 2 == 0
    && forall i :: 0 <= i < |h| ==> h[i].role == (if i % 2 == 0 then User else Assistant)
  }

  /** The shape every stored history keeps: at most ten messages, and either the system
      prompt followed by alternating exchanges or, once the prompt has been cut away,
      alternating exchanges alone. */
  predicate WellFormed(h: seq<Message>) {
    && |h| <= HistoryLimit
    && (Alternating(h) || (h != [] && h[0] == SystemMessage && Alternating(h[1..])))
  }

  lemma AlternatingDrop(h: seq<Message>, k: nat)
    requires Alternating(h) && k % 2 == 0 && k <= |h|
    ensures Alternating(h[k..])
  {
    forall i | 0 <= i < |h[k..]|
      ensures h[k..][i].role == (if i % 2 == 0 then User else Assistant)
    {
      assert h[k..][i] == h[k + i];
      assert (k + i) % 2 == i % 2;
    }
  }

  lemma AlternatingExtend(h: seq<Message>, userText: string, reply: string)
    requires Alternating(h)
    ensures Alternating(h + [Message(User, userText), Message(Assistant, reply)])
  {
  }

  /** An alternating history holds no system message. */
  lemma AlternatingHasNoSystem(h: seq<Message>)
    requires Alternating(h)
    ensures forall m :: m in h ==> m.role != System
  {
  }

  lemma ConcatDropHead(h: seq<Message>, tail: seq<Message>, k: nat)
    requires h != [] && 1 <= k <= |h| + |tail|
    ensures (h + tail)[k..] == (h[1..] + tail)[k - 1..]
  {
    assert h + tail == [h[0]] + (h[1..] + tail);
  }

  /** An exchange after an alternating history leaves an alternating history. */
  lemma NextOfAlternating(h: seq<Message>, userText: string, reply: string)
    requires Alternating(h)
    ensures Alternating(NextHistory(h, userText, reply))
  {
    var pair := [Message(User, userText), Message(Assistant, reply)];
    var n := NextHistory(h, userText, reply);
    var k := |h| + 2 - |n|;
    assert k == 0 || k == |h| - 8;
    assert k % 2 == 0;
    AlternatingExtend(h, userText, reply);
    AlternatingDrop(h + pair, k);
  }

  /** An exchange after the system prompt and alternating messages keeps that shape while
      there is room, and leaves alternating messages alone once the cut reaches the prompt. */
  lemma NextOfPrompted(h: seq<Message>, userText: string, reply: string)
    requires h != [] && h[0] == SystemMessage && Alternating(h[1..])
    ensures var n := NextHistory(h, userText, reply);
            if |h| + 2 <= HistoryLimit then n[0] == SystemMessage && Alternating(n[1..])
            else Alternating(n)
  {
    var pair := [Message(User, userText), Message(Assistant, reply)];
    var rest := h[1..];
    var n := NextHistory(h, userText, reply);
    AlternatingExtend(rest, userText, reply);
    if |h| + 2 <= HistoryLimit {
      assert n == h + pair;
      ConcatDropHead(h, pair, 1);
    } else {
      var k := |h| + 2 - HistoryLimit;
      assert n == (h + pair)[k..];
      assert (k - 1) % 2 == 0;
      ConcatDropHead(h, pair, k);
      AlternatingDrop(rest + pair, k - 1);
    }
  }

  /** Every completed exchange keeps a history well formed. */
  lemma NextHistoryWellFormed(h: seq<Message>, userText: string, reply: string)
    requires WellFormed(h)
    ensures WellFormed(NextHistory(h, userText, reply))
  {
    if Alternating(h) {
      NextOfAlternating(h, userText, reply);
    } else {
      NextOfPrompted(h, userText, reply);
    }
  }

  /** A history that is already full loses everything but the newest ten messages on the
      next exchange, the system prompt first: what is left alternates and holds no system
      message. */
  lemma FullHistoryDropsPrompt(h: seq<Message>, userText: string, reply: string)
    requires WellFormed(h) && |h| + 2 > HistoryLimit
    ensures Alternating(NextHistory(h, userText, reply))
    ensures forall m :: m in NextHistory(h, userText, reply) ==> m.role != System
  {
    if Alternating(h) {
      NextOfAlternating(h, userText, reply);
    } else {
      NextOfPrompted(h, userText, reply);
    }
    AlternatingHasNoSystem(NextHistory(h, userText, reply));
  }

  /** One completed exchange of a call: the caller's text and the assistant's reply. */
  datatype Exchange = Exchange(userText: string, reply: string)

  /** The history after a run of completed exchanges on one call. */
  function Replay(history: seq<Message>, exchanges: seq<Exchange>): (h: seq<Message>)
    ensures exchanges != [] ==> |h| >= 2
    decreases |exchanges|
  {
    if exchanges == [] then history
    else Replay(NextHistory(history, exchanges[0].userText, exchanges[0].reply), exchanges[1..])
  }

  lemma {:induction false} ReplayAlternating(h: seq<Message>, exchanges: seq<Exchange>)
    requires WellFormed(h) && Alternating(h)
    ensures Alternating(Replay(h, exchanges))
    decreases |exchanges|
  {
    if exchanges != [] {
      var n := NextHistory(h, exchanges[0].userText, exchanges[0].reply);
      NextHistoryWellFormed(h, exchanges[0].userText, exchanges[0].reply);
      if |h| + 2 > HistoryLimit {
        FullHistoryDropsPrompt(h, exchanges[0].userText, exchanges[0].reply);
      } else {
        AlternatingExtend(h, exchanges[0].userText, exchanges[0].reply);
      }
      ReplayAlternating(n, exchanges[1..]);
    }
  }

  lemma {:induction false} PromptLifetime(h: seq<Message>, exchanges: seq<Exchange>)
    requires WellFormed(h) && h != [] && h[0] == SystemMessage
    ensures var r := Replay(h, exchanges);
            r != [] && (r[0] == SystemMessage <==> (|h| - 1) / 2 + |exchanges| <= 4)
    decreases |exchanges|
  {
    assert !Alternating(h);
    if exchanges != [] {
      var e := exchanges[0];
      var n := NextHistory(h, e.userText, e.reply);
      NextHistoryWellFormed(h, e.userText, e.reply);
      if |h| + 2 <= HistoryLimit {
        assert n == h + [Message(User, e.userText), Message(Assistant, e.reply)];
        PromptLifetime(n, exchanges[1..]);
      } else {
        FullHistoryDropsPrompt(h, e.userText, e.reply);
        ReplayAlternating(n, exchanges[1..]);
        AlternatingHasNoSystem(Replay(n, exchanges[1..]));
      }
    }
  }

  /** The system prompt a call is seeded with survives four completed exchanges and is cut
      away by the fifth, for good. */
  lemma {:induction false} PromptLastsFourExchanges(exchanges: seq<Exchange>)
    ensures var h := Replay([SystemMessage], exchanges);
            h != [] && (h[0] == SystemMessage <==> |exchanges| <= 4)
  {
    assert WellFormed([SystemMessage]) by { assert [SystemMessage][1..] == []; }
    PromptLifetime([SystemMessage], exchanges);
    assert (|[SystemMessage]| - 1) / 2 == 0;
  }

  /** What one request to the process route does: the message list it sends to the
      completion API (`None`: no completion call), the history it stores for the call
      (`None`: the stored history is left alone) and the verbs of its TwiML response. */
  datatype Turn = Turn(prompt: Option<seq<Message>>, stored: Option<seq<Message>>, response: seq<Verb>)

  /** The JSON answer of a chat request: status "success" echoing the input, or status
      "error". */
  datatype ChatReply = ChatSuccess(input: string, response: string, model: string) | ChatError(error: string)

  /** What one chat request does: the message list it sends to the completion API and its
      answer. */
  datatype ChatExchange = ChatExchange(prompt: seq<Message>, reply: ChatReply)

  /** The module-level `conversations` dict of one application. */
  class ConversationStore {
    var conversations: map<string, seq<Message>>

    ghost predicate Valid()
      reads this
    {
      forall callSid :: callSid in conversations ==> WellFormed(conversations[callSid])
    }

    constructor ()
      ensures Valid() && conversations == map[]
    {
      conversations := map[];
    }

    /** `conversations.get(call_sid, [])`: an unknown call starts from an empty history. */
    function History(callSid: string): (h: seq<Message>)
      reads this
      ensures Valid() ==> WellFormed(h)
      ensures callSid !in conversations ==> h == []
    {
      if callSid in conversations then conversations[callSid] else []
    }

    /** `conversations[CallSid] = [system prompt]`: replaces any history of the call. */
    method Seed(callSid: string)
      requires Valid()
      modifies this
      ensures Valid()
      ensures conversations == old(conversations)[callSid := [SystemMessage]]
    {
      conversations := conversations[callSid := [SystemMessage]];
    }

    /** Appends a completed exchange to the call's history and keeps the newest ten. */
    method RecordExchange(callSid: string, userText: string, reply: string)
      requires Valid()
      modifies this
      ensures Valid()
      ensures conversations == old(conversations)[callSid := NextHistory(old(History(callSid)), userText, reply)]
    {
      var history := History(callSid);
      NextHistoryWellFormed(history, userText, reply);
      conversations := conversations[callSid := NextHistory(history, userText, reply)];
    }
  }
}
