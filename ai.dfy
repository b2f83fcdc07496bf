/**
 * The assistant service: the personality prompt lookup and the
 * conversation-history window kept per call. The language model's reply is
 * an input; the history cache is a map from key to message list.
 */
module Ai {
  import opened Wrappers
  import opened Errors

  const UserNotFound: string := "User not found"

  /** The most messages a conversation history keeps. */
  const HistoryLimit: nat := 10

  datatype Message = Message(role: string, content: string)

  const DefaultPrompt: string := "You are a helpful" + " and professional AI assistant. Maintain a friendly but business-like tone. Focus on being clear, concise, and solution-oriented."
  const FriendlyPrompt: string := "You are a warm" + " and friendly AI assistant. Use a casual, conversational tone while maintaining professionalism. Show empathy and understanding."
  const FormalPrompt: string := "You are a highly" + " professional AI assistant. Use formal language and maintain a serious, business-focused tone. Prioritize clarity and precision."
  const TechnicalPrompt: string := "You are a technical" + " expert AI assistant. Use precise, technical language while ensuring explanations are clear and accessible. Focus on accuracy and detail."
  const SalesPrompt: string := "You are a persuasive" + " sales-focused AI assistant. Use engaging language and focus on understanding customer needs and providing relevant solutions."

  /** The personalities that have a prompt of their own. */
  const Personalities: map<string, string> := map[
    "default" := DefaultPrompt,
    "friendly" := FriendlyPrompt,
    "formal" := FormalPrompt,
    "technical" := TechnicalPrompt,
    "sales" := SalesPrompt]

  /** `getPersonalityPrompt`: a personality's own prompt, or the default one
      for any other name, the settings' `professional` and `casual` among
      them. */
  function PersonalityPrompt(personality: string): (prompt: string)
    ensures personality in Personalities ==> prompt == Personalities[personality]
    ensures personality !in Personalities ==> prompt == DefaultPrompt
    ensures personality in {"professional", "casual"} ==> prompt == DefaultPrompt
  {
    if personality in Personalities then Personalities[personality] else DefaultPrompt
  }

  /** The five prompts differ, so the prompt tells which personality was
      looked up: the default prompt exactly for a name without a prompt of its
      own (or `default` itself). */
  lemma {:induction false} PromptIdentifiesPersonality(p: string)
    ensures PersonalityPrompt(p) == DefaultPrompt <==> p !in {"friendly", "formal", "technical", "sales"}
    ensures PersonalityPrompt(p) == FriendlyPrompt <==> p == "friendly"
    ensures PersonalityPrompt(p) == FormalPrompt <==> p == "formal"
    ensures PersonalityPrompt(p) == TechnicalPrompt <==> p == "technical"
    ensures PersonalityPrompt(p) == SalesPrompt <==> p == "sales"
  {
    assert DefaultPrompt[10] == 'h' && DefaultPrompt[11] == 'e';
    assert FriendlyPrompt[10] == 'w';
    assert FormalPrompt[10] == 'h' && FormalPrompt[11] == 'i';
    assert TechnicalPrompt[10] == 't';
    assert SalesPrompt[10] == 'p';
  }

  /** The last `HistoryLimit` messages, or all of them when there are no
      more. */
  function Window(history: seq<Message>): (r: seq<Message>)
    ensures |r| <= HistoryLimit || r == history
    ensures |history| <= HistoryLimit ==> r == history
    ensures |history| > HistoryLimit ==> |r| == HistoryLimit
    ensures r == history[|history| - |r|..]
  {
    if |history| > HistoryLimit then history[|history| - HistoryLimit..] else history
  }

  /** The history after one exchange: the two new messages appended, then
      trimmed to the window. */
  function Extend(history: seq<Message>, transcript: string, reply: string): seq<Message>
  {
    Window(history + [Message("user", transcript), Message("assistant", reply)])
  }

  /** The new history ends with the transcript and the reply; it keeps the
      whole old history when that leaves room for both, and otherwise the
      last `HistoryLimit` messages; either way the new history is within
      the limit. */
  lemma ExtendSpec(history: seq<Message>, transcript: string, reply: string)
    ensures var h := Extend(history, transcript, reply);
      && |h| >= 2
      && h[|h| - 2] == Message("user", transcript)
      && h[|h| - 1] == Message("assistant", reply)
      && (|history| + 2 <= HistoryLimit ==> h == history + [Message("user", transcript), Message("assistant", reply)])
      && (|history| + 2 > HistoryLimit ==>
            h == (history + [Message("user", transcript), Message("assistant", reply)])[|history| + 2 - HistoryLimit..])
      && |h| <= HistoryLimit
  {
    var full := history + [Message("user", transcript), Message("assistant", reply)];
    var h := Window(full);
    assert h == full[|full| - |h|..];
    if |full| > HistoryLimit {
      assert h[|h| - 2] == full[|full| - 2];
      assert h[|h| - 1] == full[|full| - 1];
    }
  }

  /** The messages sent to the model: the system prompt, the history, then
      the transcript. */
  function Prompted(prompt: string, history: seq<Message>, transcript: string): (m: seq<Message>)
    ensures |m| == |history| + 2
    ensures m[0] == Message("system", prompt) && m[|m| - 1] == Message("user", transcript)
    ensures m[1..|m| - 1] == history
  {
    [Message("system", prompt)] + history + [Message("user", transcript)]
  }

  /** The cache key of a call's conversation. */
  function HistoryKey(callId: string): string
  {
    "conversation:" + callId
  }

  /** What one exchange produced: the messages sent and the reply. */
  datatype Exchange = Exchange(messages: seq<Message>, reply: string)

  class Assistant {
    /** The users' `aiPersonality`, by user id. */
    var users: map<string, string>
    /** The conversation histories in the cache. */
    var histories: map<string, seq<Message>>

    constructor(users: map<string, string>)
      ensures this.users == users && histories == map[]
    {
      this.users := users;
      histories := map[];
    }

    /** The history stored for a call; none is an empty history. */
    function History(callId: string): seq<Message>
      reads this
    {
      if HistoryKey(callId) in histories then histories[HistoryKey(callId)] else []
    }

    /** `generateResponse`, with `reply` the model's answer: an unknown user
        is rejected before any history is read or written; otherwise the
        prompt of the user's personality, the history and the transcript are
        sent, and the history is extended with the exchange. */
    method GenerateResponse(userId: string, callId: string, transcript: string, reply: string)
      returns (r: Result<Exchange>)
      modifies this
      ensures users == old(users)
      ensures userId !in old(users) ==> r == Err(Other(UserNotFound)) && histories == old(histories)
      ensures userId in old(users) ==>
        && r == Ok(Exchange(Prompted(PersonalityPrompt(old(users)[userId]), old(History(callId)), transcript), reply))
        && histories == old(histories)[HistoryKey(callId) := Extend(old(History(callId)), transcript, reply)]
    {
      if userId !in users {
        return Err(Other(UserNotFound));
      }
      var history := History(callId);
      var messages := Prompted(PersonalityPrompt(users[userId]), history, transcript);
      histories := histories[HistoryKey(callId) := Extend(history, transcript, reply)];
      r := Ok(Exchange(messages, reply));
    }
  }
}
