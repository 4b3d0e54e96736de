/**
 * The ReAct variant: the same bounded chat history, with a framework agent
 * (given the monitoring tool) in place of direct completion calls.
 */
module ReactAgent {
  import opened Wrappers
  import opened Metrics
  import opened Conversation
  import opened AgentState
  import MonitoringTool
  import Polling
  import Text
  import Assoc

  /** The framework agent's `chat`: its response text, or the message of what it raised. */
  type AgentChat = string -> Result<string>

  const AnalysisTask: string := "Analyze these Azure Monitor metrics and provide actionable recommendations:"

  const AnalysisFocus: string := "Focus on: 1. Performance bottlenecks 2. Resource utilization 3. Error rates and issues 4. Optimization opportunities"

  /** What `str(KeyError('metrics'))` prints. */
  const MissingMetrics: string := "'metrics'"

  /** What an f-string prints for the envelope's `metrics` field. */
  function FieldText(f: MonitoringTool.Field): string {
    match f
    case Label(s) => s
    case Payload(m) => ReprMetrics(m)
  }

  /** The analysis prompt: task, the delimited metrics text, focus list. */
  function AnalysisPrompt(metricsText: string): (p: string)
    ensures Text.IsInfix(metricsText, p)
  {
    var p := AnalysisTask + "\n####\n" + metricsText + "\n####\n" + AnalysisFocus;
    Text.InfixOfSelf(metricsText);
    Text.InfixOfConcat(metricsText, AnalysisTask + "\n####\n", metricsText);
    Text.InfixOfConcat(metricsText, "\n####\n" + AnalysisFocus, AnalysisTask + "\n####\n" + metricsText);
    assert p == (AnalysisTask + "\n####\n" + metricsText) + ("\n####\n" + AnalysisFocus);
    p
  }

  /**
   * `chat_with_ai`: on success the user turn and the reply are appended and the
   * history bounded; if the agent raises, the apology is returned and the
   * history is left as it was.
   */
  function ChatWithAi(a: Agent, prompt: string, chat: AgentChat): (o: (string, Agent))
    ensures o.1.pollingInterval == a.pollingInterval
    ensures chat(prompt).Err? ==> o.0 == Apology && o.1 == a
    ensures chat(prompt).Ok? ==>
      && o.0 == chat(prompt).value
      && o.1.chatHistory == LastN(a.chatHistory + [Turn(User, prompt), Turn(Assistant, o.0)], Capacity)
    ensures |o.1.chatHistory| <= 20 || o.1 == a
    ensures Valid(a.chatHistory) ==> Valid(o.1.chatHistory)
  {
    match chat(prompt)
    case Err(_) => (Apology, a)
    case Ok(answer) =>
      AfterExchangeValid(a.chatHistory, prompt, answer);
      (answer, a.(chatHistory := AfterExchange(a.chatHistory, prompt, answer)))
  }

  /**
   * The body of `fetch_and_analyze_metrics` after the tool call: a falsy
   * envelope or one whose status is not "success" is skipped; otherwise the
   * agent is asked once and its answer posted once, and whatever is raised on
   * the way is caught.
   */
  function AnalyseEnvelope(e: MonitoringTool.Envelope, chat: AgentChat): (c: Polling.Cycle<string>)
    ensures |e| == 0 || MonitoringTool.Status(e) != Some(MonitoringTool.Label("success")) ==> Polling.Skipped(c) && c.swallowed.None?
    ensures |c.queries| <= 1 && |c.posted| <= |c.queries|
    ensures |c.posted| == 1 <==> |c.queries| == 1 && chat(c.queries[0]).Ok?
    ensures |c.posted| == 1 ==> c.posted[0] == chat(c.queries[0]).value
    ensures |c.queries| == 1 ==> exists f :: Assoc.Get(e, "metrics") == Some(f) && c.queries[0] == AnalysisPrompt(FieldText(f))
    ensures |e| > 0 && MonitoringTool.Status(e) == Some(MonitoringTool.Label("success")) ==>
      (|c.queries| == 1 <==> Assoc.HasKey(e, "metrics"))
    ensures |e| > 0 && MonitoringTool.Status(e) == Some(MonitoringTool.Label("success")) && !Assoc.HasKey(e, "metrics") ==>
      Polling.Skipped(c) && c.swallowed == Some("'metrics'")
    ensures |c.queries| == 1 && chat(c.queries[0]).Err? ==> c.swallowed == Some(chat(c.queries[0]).error)
    ensures |c.queries| == 1 && chat(c.queries[0]).Ok? ==> c.swallowed.None?
  {
    if |e| == 0 || MonitoringTool.Status(e) != Some(MonitoringTool.Label(MonitoringTool.Success)) then
      Polling.Cycle([], [], None)
    else
      match Assoc.Get(e, "metrics")
      case None => Polling.Cycle([], [], Some(MissingMetrics))
      case Some(f) =>
        var p := AnalysisPrompt(FieldText(f));
        match chat(p)
        case Ok(answer) => Polling.Cycle([p], [answer], None)
        case Err(msg) => Polling.Cycle([p], [], Some(msg))
  }

  /** `fetch_and_analyze_metrics`: the tool's envelope, then the analysis. */
  function FetchAndAnalyzeMetrics(reply: ProviderReply, chat: AgentChat): (c: Polling.Cycle<string>)
    ensures reply.Err? ==> Polling.Skipped(c) && c.swallowed.None?
    ensures reply.Ok? ==> c.queries == [AnalysisPrompt(ReprMetrics(reply.value))]
    ensures reply.Ok? ==> Text.IsInfix(ReprMetrics(reply.value), c.queries[0])
    ensures reply.Ok? && chat(c.queries[0]).Ok? ==> c.posted == [chat(c.queries[0]).value] && c.swallowed.None?
    ensures reply.Ok? && chat(c.queries[0]).Err? ==> c.posted == [] && c.swallowed == Some(chat(c.queries[0]).error)
  {
    AnalyseEnvelope(MonitoringTool.Run(reply), chat)
  }

  /**
   * Unlike the direct agent, the ReAct cycle only checks the envelope's status:
   * a successful provider call that returned an empty list is still analysed.
   */
  lemma EmptySnapshotStillAnalysed(chat: AgentChat)
    ensures |FetchAndAnalyzeMetrics(Ok(Some([])), chat).queries| == 1
    ensures |FetchAndAnalyzeMetrics(Ok(None), chat).queries| == 1
  {
  }
}
