/**
 * The metrics digest injected into the chat system prompt: one line per
 * service naming its first numeric, non-status metric.
 */
module Digest {
  import opened Wrappers
  import opened Metrics
  import Assoc
  import Text

  const NoMetrics: string := "No metrics data available."

  const ContextUnavailable: string := "Metrics context not available."

  /** The digest's reading test: numeric in Python's sense and not the `status` key. */
  predicate IsPyReading(kv: (string, Value)) {
    IsPyNumber(kv.1) && kv.0 != "status"
  }

  /** `fields[i]` is the first reading of the mapping. */
  predicate FirstPyReadingAt(fields: Fields, i: int) {
    0 <= i < |fields| && IsPyReading(fields[i]) && forall j :: 0 <= j < i ==> !IsPyReading(fields[j])
  }

  datatype Line = Line(service: string, key: string, value: Value)

  /**
   * The line a service contributes: its first reading, unless that reading's key
   * is the empty string, which Python's `if main_metric:` treats as false.
   */
  function ServiceLine(svc: (string, Fields)): (r: Option<Line>)
    ensures r.Some? <==> exists i :: FirstPyReadingAt(svc.1, i) && svc.1[i].0 != ""
    ensures forall i :: FirstPyReadingAt(svc.1, i) && svc.1[i].0 != "" ==> r == Some(Line(svc.0, svc.1[i].0, svc.1[i].1))
  {
    match Assoc.FindFirst(svc.1, IsPyReading)
    case None => None
    case Some(i) =>
      assert FirstPyReadingAt(svc.1, i);
      if svc.1[i].0 == "" then None else Some(Line(svc.0, svc.1[i].0, svc.1[i].1))
  }

  /** The lines of a snapshot, record by record and service by service. */
  function Lines(s: Snapshot): seq<Line> {
    Assoc.FilterMap(AllServices(s), ServiceLine)
  }

  /** `f"{service_name} - {main_metric}: {value}"` */
  function Render(l: Line): string {
    l.service + " - " + l.key + ": " + Show(l.value)
  }

  function RenderAll(lines: seq<Line>): (r: seq<string>)
    ensures |r| == |lines| && forall k :: 0 <= k < |lines| ==> r[k] == Render(lines[k])
  {
    seq(|lines|, k requires 0 <= k < |lines| => Render(lines[k]))
  }

  /** `get_current_metrics_context`, given what its own provider call produced. */
  function MetricsContext(reply: ProviderReply): string {
    match reply
    case Err(_) => ContextUnavailable
    case Ok(m) =>
      if !HasData(m) then NoMetrics
      else Text.Join(RenderAll(Lines(m.value)), "\n")
  }

  /**
   * Exactly one line per service that has a reading with a non-empty key, in
   * service order, and each line carries that service's first reading.
   */
  lemma OneLinePerReadingService(s: Snapshot) returns (idx: seq<nat>)
    ensures Assoc.SelectedBy(Lines(s), AllServices(s), ServiceLine, idx)
    ensures forall k :: 0 <= k < |AllServices(s)| ==>
      (ServiceLine(AllServices(s)[k]).Some? <==> k in idx)
  {
    idx := Assoc.FilterMapSelects(AllServices(s), ServiceLine);
  }

  /** Each service's line appears verbatim in the digest. */
  lemma DigestShowsEveryLine(s: Snapshot, k: nat)
    requires |s| > 0 && k < |Lines(s)|
    ensures Text.IsInfix(Render(Lines(s)[k]), MetricsContext(Ok(Some(s))))
  {
    Text.JoinContainsParts(RenderAll(Lines(s)), "\n", k);
  }

  /**
   * The loops keep no state between records: the lines of two snapshots
   * together are the lines of the first followed by those of the second.
   */
  lemma LinesAppend(s: Snapshot, t: Snapshot)
    ensures Lines(s + t) == Lines(s) + Lines(t)
  {
    AllServicesAppend(s, t);
    Assoc.FilterMapAppend(AllServices(s), AllServices(t), ServiceLine);
  }

  /** A failed provider call and an absent or empty snapshot each yield their fixed text. */
  lemma DigestFallbacks(reply: ProviderReply)
    ensures reply.Err? ==> MetricsContext(reply) == "Metrics context not available."
    ensures reply.Ok? && (reply.value.None? || reply.value.value == []) ==> MetricsContext(reply) == "No metrics data available."
  {
  }

  /** A non-empty snapshot in which no service has a reading gives the empty digest. */
  lemma {:induction false} NoReadingsNoLines(s: Snapshot)
    requires forall k :: 0 <= k < |AllServices(s)| ==> ServiceLine(AllServices(s)[k]).None?
    ensures Lines(s) == []
    ensures |s| > 0 ==> MetricsContext(Ok(Some(s))) == ""
  {
    Assoc.FilterMapNothingKept(AllServices(s), ServiceLine);
  }
}
