/**
 * The direct-LLM agent: one-shot recommendations, the polling cycle that
 * delivers them, and context-aware chat over a bounded history.
 */
module AiAgent {
  import opened Wrappers
  import opened Metrics
  import opened Conversation
  import opened OpenAiRequest
  import opened AgentState
  import Digest
  import Polling
  import Text
  import Assoc

  /** The agent's role description (wording abbreviated). */
  const Persona: string := "You are ServiceOps AI, an assistant that helps on-call engineers manage, debug and optimize their Azure Cloud infrastructure."

  /** How the chat system turn tells the model to use metrics and history (wording abbreviated). */
  const ChatProtocol: string := "Use the real-time metrics and the earlier conversation; give specific, actionable recommendations and highlight issues the metrics show."

  const RecommendationTask: string := "Given the following Azure Monitor metrics, provide actionable recommendations:"

  const RecommendationGuidance: string := "Analyse risks and bottlenecks in depth, give prioritized action steps, and keep it concise."

  const Delimiter: string := "####"

  /** The sentinel `get_openai_recommendation` returns instead of raising. */
  const RecommendationFailed: string := "Error fetching recommendation from OpenAI."

  /** What Python raises for `len(None)`. */
  const NoLength: string := "object of type 'NoneType' has no len()"

  const RecommendationMaxTokens: int := 300

  const ChatMaxTokens: int := 500

  const ChatTemperature: real := 0.7

  /** The snapshot, printed between two delimiter lines. */
  function Delimited(metrics: Option<Snapshot>): string {
    Delimiter + "\n" + ReprMetrics(metrics) + "\n" + Delimiter
  }

  /** The user turn of a recommendation request: task, delimited snapshot, guidance. */
  function RecommendationPrompt(metrics: Option<Snapshot>): (p: string)
    ensures Text.IsInfix(Delimited(metrics), p)
  {
    var p := RecommendationTask + "\n" + Delimited(metrics) + "\n" + RecommendationGuidance;
    Text.InfixOfSelf(Delimited(metrics));
    Text.InfixOfConcat(Delimited(metrics), RecommendationTask + "\n", Delimited(metrics));
    Text.InfixOfConcat(Delimited(metrics), "\n" + RecommendationGuidance, RecommendationTask + "\n" + Delimited(metrics));
    assert p == (RecommendationTask + "\n" + Delimited(metrics)) + ("\n" + RecommendationGuidance);
    p
  }

  datatype Recommendation = Recommendation(text: string, sent: Body)

  /**
   * `get_openai_recommendation`: exactly two turns, system then user, with a
   * 300-token budget and no temperature; the model's text on success, the
   * sentinel on any failure.
   */
  function GetOpenAiRecommendation(metrics: Option<Snapshot>, llm: Llm): (r: Recommendation)
    ensures Assoc.Get(r.sent, "messages") == Some(JMessages([Turn(System, Persona), Turn(User, RecommendationPrompt(metrics))]))
    ensures Assoc.Get(r.sent, "max_tokens") == Some(JInt(300)) && !Assoc.HasKey(r.sent, "temperature")
    ensures llm(r.sent).Ok? ==> r.text == llm(r.sent).value
    ensures llm(r.sent).Err? ==> r.text == "Error fetching recommendation from OpenAI."
  {
    var body := MakeBody([Turn(System, Persona), Turn(User, RecommendationPrompt(metrics))], RecommendationMaxTokens, None);
    match llm(body)
    case Ok(text) => Recommendation(text, body)
    case Err(_) => Recommendation(RecommendationFailed, body)
  }

  /** The line of the system state that reports how many records the provider returned. */
  function CountLine(count: nat): string {
    "Total Metrics Being Monitored: " + Text.NatToString(count)
  }

  /** The system turn of a chat request: persona, protocol, record count and digest. */
  function ChatSystemTurn(count: nat, digest: string): (t: Turn)
    ensures t.role == System
    ensures Text.IsInfix(digest, t.content)
    ensures Text.IsInfix(CountLine(count), t.content)
  {
    var before := Persona + "\n" + ChatProtocol + "\nCurrent System State:\n- ";
    var tail := "\n- System Overview: " + digest;
    Text.InfixOfMiddle(CountLine(count), before, tail);
    Text.InfixOfSelf(digest);
    Text.InfixOfConcat(digest, "\n- System Overview: ", digest);
    Text.InfixOfConcat(digest, before + CountLine(count), tail);
    Turn(System, before + CountLine(count) + tail)
  }

  datatype ChatOutcome = ChatOutcome(reply: Result<string>, agent: Agent, sent: seq<Body>)

  /**
   * The chat request: the system turn, then the whole history oldest first,
   * then the new user turn, with a 500-token budget and temperature 0.7.
   */
  function ChatRequest(a: Agent, prompt: string, recordCount: nat, digest: string): (b: Body)
    ensures Assoc.Get(b, "messages") == Some(JMessages([ChatSystemTurn(recordCount, digest)] + a.chatHistory + [Turn(User, prompt)]))
    ensures Assoc.Get(b, "max_tokens") == Some(JInt(500))
    ensures Assoc.Get(b, "temperature") == Some(JReal(0.7))
    ensures |MessagesOf(b)| > 0 && Text.IsInfix(digest, MessagesOf(b)[0].content)
  {
    MakeBody([ChatSystemTurn(recordCount, digest)] + a.chatHistory + [Turn(User, prompt)], ChatMaxTokens, Some(ChatTemperature))
  }

  /** The guarded part of `chat_with_ai`: the completion call and the history update. */
  function CompleteChat(a: Agent, prompt: string, body: Body, llm: Llm): (o: ChatOutcome)
    ensures o.sent == [body] && o.reply.Ok? && o.agent.pollingInterval == a.pollingInterval
    ensures llm(body).Err? ==> o.reply.value == Apology && o.agent == a
    ensures llm(body).Ok? ==>
      && o.reply.value == llm(body).value
      && o.agent.chatHistory == LastN(a.chatHistory + [Turn(User, prompt), Turn(Assistant, o.reply.value)], Capacity)
    ensures Valid(a.chatHistory) ==> Valid(o.agent.chatHistory)
  {
    match llm(body)
    case Err(_) => ChatOutcome(Ok(Apology), a, [body])
    case Ok(answer) =>
      AfterExchangeValid(a.chatHistory, prompt, answer);
      ChatOutcome(Ok(answer), a.(chatHistory := AfterExchange(a.chatHistory, prompt, answer)), [body])
  }

  /**
   * `chat_with_ai`. `atStart` is the provider call whose result is counted
   * outside the `try`, so its failure (or a `None` result) propagates;
   * `forDigest` is the provider call the digest makes.
   */
  function ChatWithAi(a: Agent, prompt: string, atStart: ProviderReply, forDigest: ProviderReply, llm: Llm): (o: ChatOutcome)
    ensures o.agent.pollingInterval == a.pollingInterval
    ensures o.reply.Err? <==> atStart.Err? || atStart.value.None?
    ensures o.reply.Err? ==> o.agent == a && o.sent == []
    ensures atStart.Err? ==> o.reply == Err(atStart.error)
    ensures o.reply.Ok? ==> o.sent == [ChatRequest(a, prompt, |atStart.value.value|, Digest.MetricsContext(forDigest))]
    ensures o.reply.Ok? && llm(o.sent[0]).Err? ==> o.reply == Ok(Apology) && o.agent == a
    ensures o.reply.Ok? && llm(o.sent[0]).Ok? ==>
      && o.reply == llm(o.sent[0])
      && o.agent.chatHistory == LastN(a.chatHistory + [Turn(User, prompt), Turn(Assistant, o.reply.value)], Capacity)
    ensures Valid(a.chatHistory) ==> Valid(o.agent.chatHistory)
  {
    match atStart
    case Err(e) => ChatOutcome(Err(e), a, [])
    case Ok(None) => ChatOutcome(Err(NoLength), a, [])
    case Ok(Some(current)) =>
      CompleteChat(a, prompt, ChatRequest(a, prompt, |current|, Digest.MetricsContext(forDigest)), llm)
  }

  /**
   * `fetch_and_analyze_metrics`: a provider exception is caught, an absent or
   * empty snapshot is skipped, and otherwise exactly one recommendation request
   * is made and its result handed to the sink once.
   */
  function FetchAndAnalyzeMetrics(reply: ProviderReply, llm: Llm): (c: Polling.Cycle<Body>)
    ensures reply.Err? ==> Polling.Skipped(c) && c.swallowed == Some(reply.error)
    ensures reply.Ok? && !HasData(reply.value) ==> Polling.Skipped(c) && c.swallowed.None?
    ensures reply.Ok? && HasData(reply.value) ==>
      && |c.queries| == 1 && |c.posted| == 1 && c.swallowed.None?
      && Assoc.Get(c.queries[0], "messages") == Some(JMessages([Turn(System, Persona), Turn(User, RecommendationPrompt(reply.value))]))
      && Assoc.Get(c.queries[0], "max_tokens") == Some(JInt(300)) && !Assoc.HasKey(c.queries[0], "temperature")
      && c.posted[0] == (if llm(c.queries[0]).Ok? then llm(c.queries[0]).value else RecommendationFailed)
  {
    match reply
    case Err(e) => Polling.Cycle([], [], Some(e))
    case Ok(m) =>
      if !HasData(m) then Polling.Cycle([], [], None)
      else
        var r := GetOpenAiRecommendation(m, llm);
        Polling.Cycle([r.sent], [r.text], None)
  }

  /**
   * A chat turn that gets an answer sends the rendered digest upstream inside
   * its system turn, and appends exactly two turns when the history has room.
   */
  lemma AnsweredChatCarriesDigest(a: Agent, prompt: string, current: Snapshot, forDigest: ProviderReply, llm: Llm)
    requires |a.chatHistory| <= Capacity - 2
    requires llm(ChatRequest(a, prompt, |current|, Digest.MetricsContext(forDigest))).Ok?
    ensures var o := ChatWithAi(a, prompt, Ok(Some(current)), forDigest, llm);
      && o.reply.Ok?
      && Text.IsInfix(Digest.MetricsContext(forDigest), MessagesOf(o.sent[0])[0].content)
      && |o.agent.chatHistory| == |a.chatHistory| + 2
      && o.agent.chatHistory[..|a.chatHistory|] == a.chatHistory
  {
    var o := ChatWithAi(a, prompt, Ok(Some(current)), forDigest, llm);
    var h := a.chatHistory + [Turn(User, prompt), Turn(Assistant, o.reply.value)];
    assert o.agent.chatHistory == h;
    assert h[..|a.chatHistory|] == a.chatHistory;
  }
}
