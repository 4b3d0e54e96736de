/**
 * The metrics snapshot the provider returns: a list of per-timestamp records,
 * each mapping service names to heterogeneous metric mappings.
 */
module Metrics {
  import opened Wrappers
  import Text

  /** A JSON-like value as it appears inside a service's metric mapping. */
  datatype Value =
    | Int(i: int)
    /** A float, with the text Python's `str` prints for it (float formatting is not modelled). */
    | Float(x: real, text: string)
    | Bool(b: bool)
    | Str(s: string)
    | Null
    /** A mapping in insertion order, e.g. a latency-percentile table. */
    | Nested(fields: seq<(string, Value)>)
    /** A list, e.g. the `logs` entries. */
    | List(items: seq<Value>)

  /** One service's metric mapping, in insertion order (metrics, `status`, `logs`). */
  type Fields = seq<(string, Value)>

  datatype Record = Record(timestamp: string, environment: string, region: string, services: seq<(string, Fields)>)

  type Snapshot = seq<Record>

  /**
   * One call of the metrics provider: `Err` when it raised, `Ok(None)` when it
   * returned Python `None`, `Ok(Some(s))` when it returned the list `s`.
   */
  type ProviderReply = Result<Option<Snapshot>>

  /** Python's `if not metrics` is false: the provider returned a non-empty list. */
  predicate HasData(m: Option<Snapshot>) {
    m.Some? && |m.value| > 0
  }

  /** Python's `isinstance(v, (int, float))`, which `bool` also satisfies. */
  predicate IsPyNumber(v: Value) {
    v.Int? || v.Float? || v.Bool?
  }

  /** JavaScript's `typeof v === 'number'`, which booleans do not satisfy. */
  predicate IsJsNumber(v: Value) {
    v.Int? || v.Float?
  }

  /** Python's `repr` of a string, without escaping of any kind: always single quotes around the text as it is. */
  function Quote(s: string): string {
    "'" + s + "'"
  }

  /** Python's `repr` of a value (what an f-string prints for it inside a list or dict). */
  function Repr(v: Value): string
  {
    match v
    case Int(i) => Text.IntToString(i)
    case Float(_, text) => text
    case Bool(b) => if b then "True" else "False"
    case Str(s) => Quote(s)
    case Null => "None"
    case Nested(fields) =>
      "{" + Text.Join(seq(|fields|, k requires 0 <= k < |fields| => Quote(fields[k].0) + ": " + Repr(fields[k].1)), ", ") + "}"
    case List(items) =>
      "[" + Text.Join(seq(|items|, k requires 0 <= k < |items| => Repr(items[k])), ", ") + "]"
  }

  /** Python's `str` of a scalar, as an f-string `{value}` prints it. */
  function Show(v: Value): string {
    match v
    case Str(s) => s
    case _ => Repr(v)
  }

  /** A record as the dict the provider builds. */
  function RecordValue(r: Record): Value {
    Nested([
      ("timestamp", Str(r.timestamp)),
      ("environment", Str(r.environment)),
      ("region", Str(r.region)),
      ("services", Nested(seq(|r.services|, k requires 0 <= k < |r.services| => (r.services[k].0, Nested(r.services[k].1)))))
    ])
  }

  /** What `f"{metrics}"` prints for the provider's return value. */
  function ReprMetrics(m: Option<Snapshot>): string {
    match m
    case None => "None"
    case Some(s) => Repr(List(seq(|s|, k requires 0 <= k < |s| => RecordValue(s[k]))))
  }

  /** Every service of every record, in the order the nested loops visit them. */
  function AllServices(s: Snapshot): seq<(string, Fields)>
  {
    if |s| == 0 then [] else s[0].services + AllServices(s[1..])
  }

  /** The services of two snapshots, one after the other. */
  lemma {:induction false} AllServicesAppend(s: Snapshot, t: Snapshot)
    ensures AllServices(s + t) == AllServices(s) + AllServices(t)
  {
    if |s| > 0 {
      assert (s + t)[1..] == s[1..] + t;
      AllServicesAppend(s[1..], t);
    } else {
      assert s + t == t;
    }
  }
}
