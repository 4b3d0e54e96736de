/** The single tool the ReAct agent is given: the metrics provider behind a status envelope. */
module MonitoringTool {
  import opened Wrappers
  import Metrics
  import Assoc

  datatype Field = Label(s: string) | Payload(metrics: Option<Metrics.Snapshot>)

  /** The dict `run` returns, fields in insertion order. */
  type Envelope = seq<(string, Field)>

  const Success: string := "success"

  const Error: string := "error"

  /** `metrics_response.get("status")` */
  function Status(e: Envelope): Option<Field> {
    Assoc.Get(e, "status")
  }

  /**
   * `AzureMonitoringTool.run`: wraps the provider's return value as a success, or
   * its exception's message as an error. It never raises.
   */
  function Run(reply: Metrics.ProviderReply): (e: Envelope)
    ensures reply.Ok? ==> Status(e) == Some(Label(Success)) && Assoc.Get(e, "metrics") == Some(Payload(reply.value))
    ensures reply.Err? ==> Status(e) == Some(Label(Error)) && Assoc.Get(e, "error") == Some(Label(reply.error))
    ensures Assoc.HasKey(e, "metrics") <==> Status(e) == Some(Label(Success))
    ensures Assoc.HasKey(e, "error") <==> Status(e) == Some(Label(Error))
    ensures |e| > 0
  {
    match reply
    case Ok(m) => [("status", Label(Success)), ("metrics", Payload(m))]
    case Err(msg) => [("status", Label(Error)), ("error", Label(msg))]
  }
}
