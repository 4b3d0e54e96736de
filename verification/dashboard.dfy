/**
 * The browser dashboard's logic: threshold classification, the metric cards,
 * the system summary and the chat input guard.
 */
module Dashboard {
  import opened Wrappers
  import opened Metrics
  import Assoc
  import Text

  datatype Status = Normal | Warning | Critical

  /** Severity order: normal < warning < critical. */
  function Rank(s: Status): nat {
    match s
    case Normal => 0
    case Warning => 1
    case Critical => 2
  }

  datatype Thresholds = Thresholds(warning: real, critical: real)

  /** The threshold table of `getMetricStatus`, in declaration order. */
  const ThresholdTable: seq<(string, Thresholds)> := [
    ("CPUUtilization", Thresholds(70.0, 85.0)),
    ("RequestLatency", Thresholds(200.0, 500.0)),
    ("HTTP4xxErrorRate", Thresholds(5.0, 10.0)),
    ("DBConnectionErrors", Thresholds(1.0, 3.0))
  ]

  /** Every warning threshold lies strictly below its critical one. */
  lemma ThresholdsOrdered()
    ensures forall k :: 0 <= k < |ThresholdTable| ==> ThresholdTable[k].1.warning < ThresholdTable[k].1.critical
  {
  }

  /** `getMetricStatus(metric, value)` */
  function MetricStatus(metric: string, value: real): (s: Status)
    ensures !Assoc.HasKey(ThresholdTable, metric) ==> s == Normal
    ensures forall t :: Assoc.Get(ThresholdTable, metric) == Some(t) ==>
      && (s == Critical <==> value >= t.critical)
      && (s == Warning <==> t.warning <= value < t.critical)
      && (s == Normal <==> value < t.warning && value < t.critical)
  {
    match Assoc.Get(ThresholdTable, metric)
    case None => Normal
    case Some(t) =>
      if value >= t.critical then Critical
      else if value >= t.warning then Warning
      else Normal
  }

  /** Raising a value never lowers its status. */
  lemma MetricStatusMonotone(metric: string, v1: real, v2: real)
    requires v1 <= v2
    ensures Rank(MetricStatus(metric, v1)) <= Rank(MetricStatus(metric, v2))
  {
  }

  /** For every known metric each of the three statuses is reached by some value. */
  lemma KnownMetricsUseEveryStatus(metric: string)
    requires Assoc.HasKey(ThresholdTable, metric)
    ensures exists v :: MetricStatus(metric, v) == Normal
    ensures exists v :: MetricStatus(metric, v) == Warning
    ensures exists v :: MetricStatus(metric, v) == Critical
  {
    var t := Assoc.Get(ThresholdTable, metric).value;
    ThresholdsOrdered();
    var i :| 0 <= i < |ThresholdTable| && ThresholdTable[i] == (metric, t);
    assert MetricStatus(metric, t.warning - 1.0) == Normal;
    assert MetricStatus(metric, t.warning) == Warning;
    assert MetricStatus(metric, t.critical) == Critical;
  }

  /** The card's reading test: a JavaScript number under a key other than `status`. */
  predicate IsJsReading(kv: (string, Value)) {
    IsJsNumber(kv.1) && kv.0 != "status"
  }

  predicate FirstJsReadingAt(fields: Fields, i: int) {
    0 <= i < |fields| && IsJsReading(fields[i]) && forall j :: 0 <= j < i ==> !IsJsReading(fields[j])
  }

  /**
   * What one card shows: service name, the raw `status` field (absent when
   * missing), the main metric, the first log message and the record's timestamp.
   */
  datatype Card = Card(service: string, status: Option<Value>, key: string, value: Value, note: string, timestamp: string)

  /** `serviceData.logs?.[0]?.message || ''` for string messages; anything else shows as empty. */
  function FirstLogMessage(fields: Fields): string {
    var logs := Assoc.Get(fields, "logs");
    if logs.Some? && logs.value.List? && |logs.value.items| > 0 && logs.value.items[0].Nested? then
      var message := Assoc.Get(logs.value.items[0].fields, "message");
      if message.Some? && message.value.Str? then message.value.s else ""
    else ""
  }

  /** The card of one service, if it has a reading. */
  function ServiceCard(timestamp: string, svc: (string, Fields)): (r: Option<Card>)
    ensures r.Some? <==> exists i :: FirstJsReadingAt(svc.1, i)
    ensures forall i :: FirstJsReadingAt(svc.1, i) ==>
      r == Some(Card(svc.0, Assoc.Get(svc.1, "status"), svc.1[i].0, svc.1[i].1, FirstLogMessage(svc.1), timestamp))
  {
    match Assoc.FindFirst(svc.1, IsJsReading)
    case None => None
    case Some(i) =>
      assert FirstJsReadingAt(svc.1, i);
      Some(Card(svc.0, Assoc.Get(svc.1, "status"), svc.1[i].0, svc.1[i].1, FirstLogMessage(svc.1), timestamp))
  }

  /** `createMetricCard(metric)` */
  function CreateMetricCards(r: Record): seq<Card> {
    Assoc.FilterMap(r.services, svc => ServiceCard(r.timestamp, svc))
  }

  /**
   * One card per service that has a reading, in service order, each showing
   * that service's first reading; services without one yield no card.
   */
  lemma OneCardPerReadingService(r: Record) returns (idx: seq<nat>)
    ensures Assoc.SelectedBy(CreateMetricCards(r), r.services, svc => ServiceCard(r.timestamp, svc), idx)
    ensures forall k :: 0 <= k < |r.services| ==> ((exists i :: FirstJsReadingAt(r.services[k].1, i)) <==> k in idx)
  {
    idx := Assoc.FilterMapSelects(r.services, svc => ServiceCard(r.timestamp, svc));
  }

  /** `service.status === wanted` */
  predicate HasStatus(fields: Fields, wanted: string) {
    Assoc.Get(fields, "status") == Some(Str(wanted))
  }

  /** The positions of the services whose status is `wanted`. */
  ghost function Matching(services: seq<(string, Fields)>, wanted: string): set<int> {
    set k | 0 <= k < |services| && HasStatus(services[k].1, wanted)
  }

  /** Appending a service adds its position to the matches exactly when its status is `wanted`. */
  lemma MatchingGrows(services: seq<(string, Fields)>, wanted: string)
    requires |services| > 0
    ensures var last := |services| - 1;
      && last !in Matching(services[..last], wanted)
      && Matching(services, wanted) ==
           Matching(services[..last], wanted) + (if HasStatus(services[last].1, wanted) then {last} else {})
  {
    var last := |services| - 1;
    var init := services[..last];
    forall k | 0 <= k < last
      ensures init[k] == services[k]
    {
    }
  }

  /** `Object.values(services).filter(service => service.status === wanted).length` */
  function CountStatus(services: seq<(string, Fields)>, wanted: string): (n: nat)
    ensures n == |set k | 0 <= k < |services| && HasStatus(services[k].1, wanted)|
    ensures n <= |services|
    ensures n > 0 <==> exists k :: 0 <= k < |services| && HasStatus(services[k].1, wanted)
  {
    if |services| == 0 then 0
    else
      var last := |services| - 1;
      var rest := CountStatus(services[..last], wanted);
      MatchingGrows(services, wanted);
      assert forall k :: 0 <= k < last ==> services[..last][k] == services[k];
      rest + (if HasStatus(services[last].1, wanted) then 1 else 0)
  }

  /** Services whose status is neither critical nor warning, counted directly. */
  function CountOther(services: seq<(string, Fields)>): nat {
    if |services| == 0 then 0
    else
      var last := |services| - 1;
      CountOther(services[..last]) + (if !HasStatus(services[last].1, "critical") && !HasStatus(services[last].1, "warning") then 1 else 0)
  }

  /** Every service falls in exactly one of the three groups. */
  lemma {:induction false} CountsPartition(services: seq<(string, Fields)>)
    ensures CountStatus(services, "critical") + CountStatus(services, "warning") + CountOther(services) == |services|
  {
    if |services| > 0 {
      var last := |services| - 1;
      var init := services[..last];
      CountsPartition(init);
      var c := if HasStatus(services[last].1, "critical") then 1 else 0;
      var w := if HasStatus(services[last].1, "warning") then 1 else 0;
      assert CountStatus(services, "critical") == CountStatus(init, "critical") + c;
      assert CountStatus(services, "warning") == CountStatus(init, "warning") + w;
      assert CountOther(services) == CountOther(init) + 1 - c - w;
    }
  }

  /** The three counts of the summary panel and the recommendation shown under them. */
  datatype Summary = Summary(critical: nat, warning: nat, healthy: int, recommendation: string)

  /**
   * What `updateSystemSummary` leaves on screen: the overall badge, when it
   * was set (`None` leaves the previous one), and the summary panel, which is
   * the error alert when anything in the promise chain threw.
   */
  datatype SummaryView = SummaryView(badge: Option<Status>, panel: Result<Summary>)

  const SummaryFailed: string := "Error loading system summary"

  /** The overall badge: critical if any service is, else warning if any is, else normal. */
  function Overall(critical: nat, warning: nat): Status {
    if critical > 0 then Critical else if warning > 0 then Warning else Normal
  }

  /**
   * `updateSystemSummary(metrics)`. `reply` is what the recommendation request
   * resolved to: `Err` when `fetch` or `response.json()` rejected, otherwise the
   * parsed body's `recommendation` string, `None` when it has none (the API's
   * error answer carries only `error`).
   *
   * Only the first record's services are counted. An empty snapshot makes
   * `metrics[0].services` throw before anything is drawn. The badge is set
   * before the panel, so when `marked.parse` throws on a missing
   * recommendation the badge keeps the computed status while the panel shows
   * the error alert.
   */
  function UpdateSystemSummary(s: Snapshot, reply: Result<Option<string>>): (v: SummaryView)
    ensures v.badge.Some? <==> |s| > 0 && reply.Ok?
    ensures v.panel.Ok? <==> |s| > 0 && reply.Ok? && reply.value.Some?
    ensures v.panel.Err? ==> v.panel.error == "Error loading system summary"
    ensures v.badge.Some? ==>
      && (v.badge.value == Critical <==> exists k :: 0 <= k < |s[0].services| && HasStatus(s[0].services[k].1, "critical"))
      && (v.badge.value == Warning <==>
           (forall k :: 0 <= k < |s[0].services| ==> !HasStatus(s[0].services[k].1, "critical"))
           && exists k :: 0 <= k < |s[0].services| && HasStatus(s[0].services[k].1, "warning"))
      && (v.badge.value == Normal <==>
           forall k :: 0 <= k < |s[0].services| ==>
             !HasStatus(s[0].services[k].1, "critical") && !HasStatus(s[0].services[k].1, "warning"))
    ensures v.panel.Ok? ==>
      && v.panel.value.critical == CountStatus(s[0].services, "critical")
      && v.panel.value.warning == CountStatus(s[0].services, "warning")
      && v.panel.value.critical + v.panel.value.warning + v.panel.value.healthy == |s[0].services|
      && v.panel.value.healthy == CountOther(s[0].services) >= 0
      && v.panel.value.recommendation == reply.value.value
  {
    if |s| == 0 || reply.Err? then SummaryView(None, Err(SummaryFailed))
    else
      var services := s[0].services;
      var critical := CountStatus(services, "critical");
      var warning := CountStatus(services, "warning");
      var badge := Some(Overall(critical, warning));
      match reply.value
      case None => SummaryView(badge, Err(SummaryFailed))
      case Some(text) =>
        CountsPartition(services);
        SummaryView(badge, Ok(Summary(critical, warning, |services| - critical - warning, text)))
  }

  /** Records after the first do not influence the summary. */
  lemma SummaryReadsFirstRecordOnly(s: Snapshot, t: Snapshot, reply: Result<Option<string>>)
    requires |s| > 0 && |t| > 0 && s[0].services == t[0].services
    ensures UpdateSystemSummary(s, reply) == UpdateSystemSummary(t, reply)
  {
  }

  /** What `sendMessage` leaves in the input box and what it posts. */
  datatype SendOutcome = SendOutcome(input: string, posted: Option<string>)

  /**
   * `sendMessage`: input that is empty after trimming is neither shown nor sent
   * and the box keeps its text; otherwise the trimmed text is sent and the box
   * is cleared.
   */
  function SendMessage(input: string): (r: SendOutcome)
    ensures r.posted.None? <==> Text.WhitespaceBetween(input, 0, |input|)
    ensures r.posted.None? ==> r.input == input
    ensures r.posted.Some? ==>
      && r.input == ""
      && r.posted.value != ""
      && !Text.IsJsWhitespace(r.posted.value[0]) && !Text.IsJsWhitespace(r.posted.value[|r.posted.value| - 1])
      && exists i, j :: 0 <= i <= j <= |input| && r.posted.value == input[i..j]
           && Text.WhitespaceBetween(input, 0, i) && Text.WhitespaceBetween(input, j, |input|)
  {
    var message := Text.Trim(input);
    if message == "" then SendOutcome(input, None) else SendOutcome("", Some(message))
  }
}
