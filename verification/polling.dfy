/** The polling loop both agents run: analyse, sleep, repeat. */
module Polling {
  import opened Wrappers

  /**
   * What one analysis cycle did: the queries it put to the language model, the
   * recommendations it handed to the sink, and the exception it caught, if any.
   */
  datatype Cycle<Q> = Cycle(queries: seq<Q>, posted: seq<string>, swallowed: Option<string>)

  /** A cycle that stopped early: nothing asked, nothing posted. */
  predicate Skipped<Q>(c: Cycle<Q>) {
    c.queries == [] && c.posted == []
  }

  /**
   * One step of the loop: a cycle ran, the loop slept, or `start` ended with
   * an exception that escaped the loop body.
   */
  datatype Event<Q> = Ran(cycle: Cycle<Q>) | Slept(interval: nat) | Raised(error: string)

  /** The default of `POLLING_INTERVAL`. */
  const DefaultPollingInterval: int := 300

  /** What `time.sleep` raises for a negative duration. */
  const NegativeSleep: string := "sleep length must be non-negative"

  /** What `time.sleep` raises when the duration does not fit in 64-bit nanoseconds. */
  const SleepTooLarge: string := "timestamp too large to convert to C _PyTime_t"

  /** The largest whole number of seconds whose nanoseconds fit in a signed 64-bit integer. */
  const MaxSleep: int := 9223372036

  /**
   * What `time.sleep(interval)` raises, if anything: the duration is first
   * converted to signed 64-bit nanoseconds (overflow in either direction),
   * and only then checked for sign.
   */
  function SleepError(interval: int): (r: Option<string>)
    ensures r.None? <==> 0 <= interval <= MaxSleep
    ensures interval > MaxSleep || interval < -MaxSleep ==> r == Some(SleepTooLarge)
    ensures -MaxSleep <= interval < 0 ==> r == Some(NegativeSleep)
  {
    if interval * 1_000_000_000 >= 0x8000_0000_0000_0000 || interval * 1_000_000_000 < -0x8000_0000_0000_0000 then Some(SleepTooLarge)
    else if interval < 0 then Some(NegativeSleep)
    else None
  }

  /**
   * `start` over a finite prefix of its infinite loop: iteration `k` runs one
   * cycle on the k-th input, then sleeps for `interval`. A cycle cannot stop the
   * loop, since its outcome is an ordinary value whatever it caught; but the
   * sleep sits outside the cycle's `try`, so an interval `time.sleep` rejects
   * ends `start` with that exception right after the first cycle.
   */
  function Start<I, Q>(inputs: seq<I>, cycle: I -> Cycle<Q>, interval: int): (trace: seq<Event<Q>>)
    ensures 0 <= interval <= MaxSleep ==> |trace| == 2 * |inputs|
    ensures 0 <= interval <= MaxSleep ==> forall k :: 0 <= k < |inputs| ==> trace[2 * k] == Ran(cycle(inputs[k]))
    ensures 0 <= interval <= MaxSleep ==> forall k :: 0 <= k < |inputs| ==> trace[2 * k + 1] == Slept(interval)
    ensures -MaxSleep <= interval < 0 && |inputs| > 0 ==> trace == [Ran(cycle(inputs[0])), Raised(NegativeSleep)]
    ensures (interval > MaxSleep || interval < -MaxSleep) && |inputs| > 0 ==> trace == [Ran(cycle(inputs[0])), Raised(SleepTooLarge)]
    ensures |inputs| == 0 ==> trace == []
    ensures forall k :: 0 <= k < |trace| ==> trace[k].Raised? ==> !(0 <= interval <= MaxSleep) && k == |trace| - 1
  {
    if |inputs| == 0 then []
    else
      match SleepError(interval)
      case Some(e) => [Ran(cycle(inputs[0])), Raised(e)]
      case None => Schedule(inputs, cycle, interval)
  }

  /** The loop with a valid interval: cycle and sleep, alternating, for every input. */
  function Schedule<I, Q>(inputs: seq<I>, cycle: I -> Cycle<Q>, interval: nat): (trace: seq<Event<Q>>)
    ensures |trace| == 2 * |inputs|
    ensures forall k :: 0 <= k < |inputs| ==> trace[2 * k] == Ran(cycle(inputs[k]))
    ensures forall k :: 0 <= k < |inputs| ==> trace[2 * k + 1] == Slept(interval)
    ensures forall k :: 0 <= k < |trace| ==> !trace[k].Raised?
  {
    if |inputs| == 0 then []
    else
      var rest := Schedule(inputs[1..], cycle, interval);
      var trace := [Ran(cycle(inputs[0])), Slept(interval)] + rest;
      PrependedPairs(inputs, cycle, interval, rest);
      assert forall k :: 2 <= k < |trace| ==> trace[k] == rest[k - 2];
      trace
  }

  lemma PrependedPairs<I, Q>(inputs: seq<I>, cycle: I -> Cycle<Q>, interval: nat, rest: seq<Event<Q>>)
    requires |inputs| > 0 && |rest| == 2 * (|inputs| - 1)
    requires forall k :: 0 <= k < |inputs| - 1 ==> rest[2 * k] == Ran(cycle(inputs[1..][k]))
    requires forall k :: 0 <= k < |inputs| - 1 ==> rest[2 * k + 1] == Slept(interval)
    ensures var trace := [Ran(cycle(inputs[0])), Slept(interval)] + rest;
      && (forall k :: 0 <= k < |inputs| ==> trace[2 * k] == Ran(cycle(inputs[k])))
      && (forall k :: 0 <= k < |inputs| ==> trace[2 * k + 1] == Slept(interval))
  {
    var trace := [Ran(cycle(inputs[0])), Slept(interval)] + rest;
    forall k | 1 <= k < |inputs|
      ensures trace[2 * k] == Ran(cycle(inputs[k])) && trace[2 * k + 1] == Slept(interval)
    {
      var j := k - 1;
      assert trace[2 * k] == rest[2 * j];
      assert trace[2 * k + 1] == rest[2 * j + 1];
      assert inputs[1..][j] == inputs[k];
    }
  }
}
