/** The chat-completion request both callers of `_make_openai_request` build. */
module OpenAiRequest {
  import opened Wrappers
  import opened Conversation
  import Assoc

  /** The JSON values a request body holds. */
  datatype Json = JString(s: string) | JMessages(turns: History) | JInt(n: int) | JReal(x: real)

  /** The body's fields in the order they are inserted. */
  type Body = seq<(string, Json)>

  const Model: string := "gpt-4o"

  /**
   * The payload: `model`, `messages` and `max_tokens` always, and `temperature`
   * only when the caller supplied one.
   */
  function MakeBody(messages: History, maxTokens: int, temperature: Option<real>): (b: Body)
    ensures Assoc.Get(b, "model") == Some(JString(Model))
    ensures Assoc.Get(b, "messages") == Some(JMessages(messages))
    ensures Assoc.Get(b, "max_tokens") == Some(JInt(maxTokens))
    ensures Assoc.HasKey(b, "temperature") <==> temperature.Some?
    ensures temperature.Some? ==> Assoc.Get(b, "temperature") == Some(JReal(temperature.value))
  {
    var base := [("model", JString(Model)), ("messages", JMessages(messages)), ("max_tokens", JInt(maxTokens))];
    var b := if temperature.Some? then base + [("temperature", JReal(temperature.value))] else base;
    assert b[1..][1..][0] == ("max_tokens", JInt(maxTokens));
    assert temperature.Some? ==> b[3].0 == "temperature";
    b
  }

  /** The `messages` field of a body (empty when it has none). */
  function MessagesOf(b: Body): History {
    var field := Assoc.Get(b, "messages");
    if field.Some? && field.value.JMessages? then field.value.turns else []
  }

  /**
   * The completion service, seen from the core: the stripped content of the
   * first choice, or the message of whatever the HTTP call raised.
   */
  type Llm = Body -> Result<string>
}
