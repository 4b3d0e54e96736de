/**
 * The bounded chat history both agents keep: a sequence of turns, of which
 * only the most recent `Capacity` survive a completed exchange.
 */
module Conversation {

  datatype Role = System | User | Assistant

  datatype Turn = Turn(role: Role, content: string)

  type History = seq<Turn>

  /** `if len(self.chat_history) > 20` */
  const Capacity: nat := 20

  /** The fixed reply of a chat turn that could not be completed; the history is then left as it was. */
  const Apology: string := "I apologize, but I'm having trouble processing your request at the moment. Please try again or check the system metrics directly."

  /** The last `n` elements of `h` (all of them when there are fewer). */
  function LastN<T>(h: seq<T>, n: nat): seq<T> {
    if |h| > n then h[|h| - n..] else h
  }

  /** `self.chat_history = self.chat_history[-20:]` when the history is over capacity. */
  function Bound(h: History): (r: History)
    ensures |r| <= Capacity
    ensures |r| == if |h| > Capacity then Capacity else |h|
    ensures r == h[|h| - |r|..]
  {
    LastN(h, Capacity)
  }

  /** The two turns a completed exchange appends: the user's prompt, then the reply. */
  function Exchange(prompt: string, answer: string): History {
    [Turn(User, prompt), Turn(Assistant, answer)]
  }

  /** The history after a successful chat call: both turns appended, then bounded. */
  function AfterExchange(h: History, prompt: string, answer: string): (r: History)
    ensures |r| <= Capacity
    ensures |h| + 2 > Capacity ==> |r| == Capacity
    ensures 2 <= |r| <= |h| + 2 && r[|r| - 2..] == Exchange(prompt, answer)
    ensures r == (h + Exchange(prompt, answer))[|h| + 2 - |r|..]
    ensures |h| + 2 <= Capacity ==> r == h + Exchange(prompt, answer)
  {
    Bound(h + Exchange(prompt, answer))
  }

  /** Turns alternate user, assistant, user, ... starting with a user turn. */
  predicate Alternates(h: History) {
    forall i :: 0 <= i < |h| ==> h[i].role == (if i % 2 == 0 then User else Assistant)
  }

  /** What every history reachable from the empty one satisfies. */
  predicate Valid(h: History) {
    |h| <= Capacity && |h| % 2 == 0 && Alternates(h)
  }

  lemma AfterExchangeValid(h: History, prompt: string, answer: string)
    ensures Valid(h) ==> Valid(AfterExchange(h, prompt, answer))
  {
    if !Valid(h) { return; }
    var full := h + Exchange(prompt, answer);
    AppendExchangeAlternates(h, prompt, answer);
    var r := AfterExchange(h, prompt, answer);
    DropEvenPrefix(full, |full| - |r|);
  }

  lemma AppendExchangeAlternates(h: History, prompt: string, answer: string)
    requires |h| % 2 == 0 && Alternates(h)
    ensures Alternates(h + Exchange(prompt, answer))
  {
    var full := h + Exchange(prompt, answer);
    forall i | 0 <= i < |full| ensures full[i].role == (if i % 2 == 0 then User else Assistant) {
      if i < |h| { assert full[i] == h[i]; }
    }
  }

  /** Dropping an even number of turns from the front keeps the alternation. */
  lemma DropEvenPrefix(h: History, d: nat)
    requires d <= |h| && d % 2 == 0 && Alternates(h)
    ensures Alternates(h[d..])
  {
    var r := h[d..];
    forall i | 0 <= i < |r| ensures r[i].role == (if i % 2 == 0 then User else Assistant) {
      assert r[i] == h[d + i];
      assert (d + i) % 2 == i % 2;
    }
  }

  /** The turns of a series of exchanges, in order. */
  function Transcript(xs: seq<(string, string)>): (t: History)
    ensures |t| == 2 * |xs|
  {
    if |xs| == 0 then [] else Exchange(xs[0].0, xs[0].1) + Transcript(xs[1..])
  }

  /** The history after a series of successful chat calls. */
  function Replay(h: History, xs: seq<(string, string)>): History
    decreases |xs|
  {
    if |xs| == 0 then h else Replay(AfterExchange(h, xs[0].0, xs[0].1), xs[1..])
  }

  /** Bounding twice is bounding once over the whole sequence. */
  lemma LastNOfLastN<T>(a: seq<T>, b: seq<T>, n: nat)
    ensures LastN(LastN(a, n) + b, n) == LastN(a + b, n)
  {
    if |a| > n {
      var la := a[|a| - n..];
      assert la + b == (a + b)[|a| - n..];
    }
  }

  /** One exchange, then the rest. */
  lemma ReplayStep(h: History, xs: seq<(string, string)>)
    requires |xs| > 0
    ensures Replay(h, xs) == Replay(LastN(h + Exchange(xs[0].0, xs[0].1), Capacity), xs[1..])
  {
  }

  /**
   * FIFO eviction: after any series of successful calls the history is exactly
   * the last `Capacity` turns of everything ever appended, in order.
   */
  lemma {:induction false} ReplayKeepsNewest(h: History, xs: seq<(string, string)>)
    requires |h| <= Capacity
    ensures Replay(h, xs) == LastN(h + Transcript(xs), Capacity)
    decreases |xs|
  {
    if |xs| > 0 {
      var e := Exchange(xs[0].0, xs[0].1);
      var next := LastN(h + e, Capacity);
      ReplayStep(h, xs);
      ReplayKeepsNewest(next, xs[1..]);
      LastNOfLastN(h + e, Transcript(xs[1..]), Capacity);
      assert h + e + Transcript(xs[1..]) == h + Transcript(xs);
    } else {
      assert h + Transcript(xs) == h;
    }
  }

  lemma {:induction false} TranscriptAppend(xs: seq<(string, string)>, ys: seq<(string, string)>)
    ensures Transcript(xs + ys) == Transcript(xs) + Transcript(ys)
  {
    if |xs| == 0 {
      assert xs + ys == ys;
    } else {
      assert (xs + ys)[1..] == xs[1..] + ys;
      TranscriptAppend(xs[1..], ys);
    }
  }

  /**
   * Ten or more successful calls, from any reachable history, leave exactly 20
   * turns: the last ten exchanges, oldest first.
   */
  lemma ManyExchangesKeepLastTen(h: History, xs: seq<(string, string)>)
    requires |h| <= Capacity && |xs| >= 10
    ensures Replay(h, xs) == Transcript(xs[|xs| - 10..])
    ensures |Replay(h, xs)| == Capacity
  {
    var k := |xs| - 10;
    var t := Transcript(xs);
    ReplayKeepsNewest(h, xs);
    assert LastN(h + t, Capacity) == t[2 * k..] by {
      assert (h + t)[|h| + 2 * k..] == t[2 * k..];
    }
    TranscriptSuffix(xs, k);
  }

  /** Dropping `k` exchanges drops their `2 * k` turns. */
  lemma TranscriptSuffix(xs: seq<(string, string)>, k: nat)
    requires k <= |xs|
    ensures Transcript(xs)[2 * k..] == Transcript(xs[k..])
  {
    assert xs == xs[..k] + xs[k..];
    TranscriptAppend(xs[..k], xs[k..]);
    var front := Transcript(xs[..k]);
    assert (front + Transcript(xs[k..]))[|front|..] == Transcript(xs[k..]);
  }

  /** From the empty history, every reachable history is valid. */
  lemma {:induction false} ReplayValid(h: History, xs: seq<(string, string)>)
    requires Valid(h)
    ensures Valid(Replay(h, xs))
    decreases |xs|
  {
    if |xs| > 0 {
      AfterExchangeValid(h, xs[0].0, xs[0].1);
      ReplayValid(AfterExchange(h, xs[0].0, xs[0].1), xs[1..]);
    }
  }

  /**
   * Appending the two turns one at a time, bounding after each, gives the same
   * history as appending both and bounding once.
   */
  lemma StepwiseBoundAgrees(h: History, prompt: string, answer: string)
    ensures Bound(Bound(h + [Turn(User, prompt)]) + [Turn(Assistant, answer)]) == AfterExchange(h, prompt, answer)
  {
    LastNOfLastN(h + [Turn(User, prompt)], [Turn(Assistant, answer)], Capacity);
    assert h + [Turn(User, prompt)] + [Turn(Assistant, answer)] == h + Exchange(prompt, answer);
  }
}
