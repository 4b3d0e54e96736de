/** Concrete snapshots that pin down the selection rules on small inputs. */
module Scenarios {
  import opened Wrappers
  import opened Metrics
  import opened Conversation
  import opened OpenAiRequest
  import opened AgentState
  import Digest
  import AiAgent
  import Dashboard
  import Text
  import Assoc

  /** A service in warning whose only number is an error rate of 4.5. */
  function WarningGateway(): Snapshot {
    [Record("2025-02-12T12:00:00Z", "Production", "West US 2",
      [("Gateway", [("status", Str("warning")), ("ErrorRate", Float(4.5, "4.5"))])])]
  }

  /** The digest names the error rate and skips the status field. */
  lemma WarningGatewayDigest()
    ensures Digest.Lines(WarningGateway()) == [Digest.Line("Gateway", "ErrorRate", Float(4.5, "4.5"))]
    ensures Digest.MetricsContext(Ok(Some(WarningGateway()))) == "Gateway - ErrorRate: 4.5"
  {
    var s := WarningGateway();
    var svc := s[0].services[0];
    var line := Digest.Line("Gateway", "ErrorRate", Float(4.5, "4.5"));
    assert Digest.FirstPyReadingAt(svc.1, 1);
    assert Digest.ServiceLine(svc) == Some(line);
    assert AllServices(s[1..]) == [];
    assert AllServices(s) == [svc];
    assert Assoc.FilterMap([svc], Digest.ServiceLine) == [line] + Assoc.FilterMap([svc][1..], Digest.ServiceLine);
    assert Digest.Lines(s) == [line];
    assert Digest.Render(line) == "Gateway - ErrorRate: 4.5";
    assert Digest.RenderAll([line]) == ["Gateway - ErrorRate: 4.5"];
  }

  /**
   * Asking about that service sends "Gateway - ErrorRate: 4.5" upstream, and a
   * successful answer appends exactly two turns when the history has room.
   */
  lemma WarningGatewayChat(a: Agent, prompt: string, llm: Llm)
    requires |a.chatHistory| <= Capacity - 2
    requires llm(AiAgent.ChatRequest(a, prompt, 1, "Gateway - ErrorRate: 4.5")).Ok?
    ensures var o := AiAgent.ChatWithAi(a, prompt, Ok(Some(WarningGateway())), Ok(Some(WarningGateway())), llm);
      && o.reply.Ok?
      && Text.IsInfix("Gateway - ErrorRate: 4.5", MessagesOf(o.sent[0])[0].content)
      && |o.agent.chatHistory| == |a.chatHistory| + 2
  {
    WarningGatewayDigest();
    AiAgent.AnsweredChatCarriesDigest(a, prompt, WarningGateway(), Ok(Some(WarningGateway())), llm);
  }

  /** A service whose first non-status entry is a boolean, then an integer. */
  function FlaggedService(): (string, Fields) {
    ("Cache", [("status", Str("healthy")), ("Enabled", Bool(true)), ("Evictions", Int(12))])
  }

  /**
   * Python counts `True` as a number and JavaScript does not: the digest line
   * shows the flag, while the dashboard card shows the integer after it.
   */
  lemma BooleansDivergeBetweenDigestAndCard(timestamp: string)
    ensures Digest.ServiceLine(FlaggedService()) == Some(Digest.Line("Cache", "Enabled", Bool(true)))
    ensures Digest.Render(Digest.ServiceLine(FlaggedService()).value) == "Cache - Enabled: True"
    ensures Dashboard.ServiceCard(timestamp, FlaggedService()).value.key == "Evictions"
  {
    assert Digest.FirstPyReadingAt(FlaggedService().1, 1);
    assert Dashboard.FirstJsReadingAt(FlaggedService().1, 2);
  }

  /** A service whose first reading sits under the empty key. */
  function UnnamedReading(): (string, Fields) {
    ("Queue", [("", Int(7)), ("Depth", Int(500))])
  }

  /**
   * Python's `if main_metric:` rejects the empty key, so the service gets no
   * digest line even though a later key is numeric; the card still shows it.
   */
  lemma EmptyKeySuppressesDigestLine(timestamp: string)
    ensures Digest.ServiceLine(UnnamedReading()) == None
    ensures Dashboard.ServiceCard(timestamp, UnnamedReading()).Some?
  {
    assert Digest.FirstPyReadingAt(UnnamedReading().1, 0);
    assert Dashboard.FirstJsReadingAt(UnnamedReading().1, 0);
  }

  /** A status other than "critical" or "warning", such as "error", counts as healthy. */
  lemma ErrorStatusCountsAsHealthy()
    ensures var s := [Record("t", "Production", "West US 2", [("SQL", [("status", Str("error")), ("Deadlocks", Int(4))])])];
      var v := Dashboard.UpdateSystemSummary(s, Ok(Some("rec")));
      v.panel.Ok? && v.panel.value.critical == 0 && v.panel.value.warning == 0 && v.panel.value.healthy == 1
      && v.badge == Some(Dashboard.Normal)
  {
    var fields: Fields := [("status", Str("error")), ("Deadlocks", Int(4))];
    assert Assoc.Get(fields, "status") == Some(Str("error"));
  }
}
