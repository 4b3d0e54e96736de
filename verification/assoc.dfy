/**
 * Ordered key/value sequences and the two scans the system runs over them.
 * Python dicts and JavaScript objects keep insertion order, so a mapping is
 * modelled as a sequence of (key, value) pairs rather than a Dafny `map`.
 */
module Assoc {
  import opened Wrappers

  predicate HasKey<V>(kvs: seq<(string, V)>, key: string) {
    exists i :: 0 <= i < |kvs| && kvs[i].0 == key
  }

  /** Property lookup (`d.get(key)`, `obj[key]`): the value of the first entry carrying `key`. */
  function Get<V>(kvs: seq<(string, V)>, key: string): (r: Option<V>)
    ensures r.None? <==> !HasKey(kvs, key)
    ensures r.Some? ==> exists i :: 0 <= i < |kvs| && kvs[i] == (key, r.value)
  {
    if |kvs| == 0 then None
    else if kvs[0].0 == key then Some(kvs[0].1)
    else
      var r := Get(kvs[1..], key);
      assert forall i :: 0 < i < |kvs| ==> kvs[i] == kvs[1..][i - 1];
      r
  }

  /**
   * Index of the first element satisfying `p` (Python `next(... if p, None)`,
   * JavaScript `Array.prototype.find`).
   */
  function FindFirst<T>(xs: seq<T>, p: T -> bool): (r: Option<nat>)
    ensures r.Some? ==> r.value < |xs| && p(xs[r.value])
    ensures r.Some? ==> forall j :: 0 <= j < r.value ==> !p(xs[j])
    ensures r.None? <==> forall j :: 0 <= j < |xs| ==> !p(xs[j])
  {
    if |xs| == 0 then None
    else if p(xs[0]) then Some(0)
    else
      match FindFirst(xs[1..], p)
      case None => None
      case Some(k) => Some(k + 1)
  }

  /** Keeps `f(x).value` for every `x` with `f(x).Some?`, in order. */
  function FilterMap<A, B>(xs: seq<A>, f: A -> Option<B>): seq<B>
  {
    if |xs| == 0 then []
    else match f(xs[0])
      case Some(y) => [y] + FilterMap(xs[1..], f)
      case None => FilterMap(xs[1..], f)
  }

  predicate StrictlyIncreasing(idx: seq<nat>) {
    forall a, b :: 0 <= a < b < |idx| ==> idx[a] < idx[b]
  }

  /**
   * `ys` is `xs` filtered and mapped by `f`: `idx` names, in increasing order,
   * exactly the positions of `xs` that `f` keeps, and `ys[j]` is what `f` made
   * of the element at `idx[j]`.
   */
  ghost predicate SelectedBy<A, B>(ys: seq<B>, xs: seq<A>, f: A -> Option<B>, idx: seq<nat>) {
    && |idx| == |ys|
    && StrictlyIncreasing(idx)
    && Produces(ys, xs, f, idx)
    && Covers(idx, xs, f, 0)
  }

  /** Each kept output comes from the named position. */
  ghost predicate Produces<A, B>(ys: seq<B>, xs: seq<A>, f: A -> Option<B>, idx: seq<nat>)
    requires |idx| == |ys|
  {
    forall j :: 0 <= j < |idx| ==> idx[j] < |xs| && f(xs[idx[j]]) == Some(ys[j])
  }

  /** Every position from `from` on that `f` keeps is named. */
  ghost predicate Covers<A, B>(idx: seq<nat>, xs: seq<A>, f: A -> Option<B>, from: nat) {
    forall k :: from <= k < |xs| && f(xs[k]).Some? ==> k in idx
  }

  lemma {:induction false} FilterMapSelects<A, B>(xs: seq<A>, f: A -> Option<B>) returns (idx: seq<nat>)
    ensures SelectedBy(FilterMap(xs, f), xs, f, idx)
  {
    if |xs| == 0 {
      idx := [];
    } else {
      var tail := FilterMap(xs[1..], f);
      var rest := FilterMapSelects(xs[1..], f);
      var shifted := Shift(rest);
      ShiftedProduces(tail, xs, f, rest);
      ShiftedCovers(tail, xs, f, rest);
      if f(xs[0]).Some? {
        idx := [0] + shifted;
        assert FilterMap(xs, f) == [f(xs[0]).value] + tail;
        KeptHeadSelects(f(xs[0]).value, tail, xs, f, shifted);
      } else {
        idx := shifted;
        assert FilterMap(xs, f) == tail;
      }
    }
  }

  lemma KeptHeadSelects<A, B>(y: B, tail: seq<B>, xs: seq<A>, f: A -> Option<B>, shifted: seq<nat>)
    requires |xs| > 0 && f(xs[0]) == Some(y)
    requires |shifted| == |tail| && StrictlyIncreasing(shifted)
    requires forall j :: 0 <= j < |shifted| ==> shifted[j] > 0
    requires Produces(tail, xs, f, shifted) && Covers(shifted, xs, f, 1)
    ensures SelectedBy([y] + tail, xs, f, [0] + shifted)
  {
    var idx := [0] + shifted;
    assert forall j :: 1 <= j < |idx| ==> idx[j] == shifted[j - 1] && ([y] + tail)[j] == tail[j - 1];
    assert forall k :: k in shifted ==> k in idx;
  }

  lemma ShiftedProduces<A, B>(tail: seq<B>, xs: seq<A>, f: A -> Option<B>, rest: seq<nat>)
    requires |xs| > 0 && |rest| == |tail| && Produces(tail, xs[1..], f, rest)
    ensures Produces(tail, xs, f, Shift(rest))
  {
    var shifted := Shift(rest);
    forall j | 0 <= j < |shifted| ensures shifted[j] < |xs| && f(xs[shifted[j]]) == Some(tail[j]) {
      assert xs[shifted[j]] == xs[1..][rest[j]];
    }
  }

  lemma ShiftedCovers<A, B>(tail: seq<B>, xs: seq<A>, f: A -> Option<B>, rest: seq<nat>)
    requires |xs| > 0 && Covers(rest, xs[1..], f, 0)
    ensures Covers(Shift(rest), xs, f, 1)
  {
    var shifted := Shift(rest);
    forall k | 1 <= k < |xs| && f(xs[k]).Some? ensures k in shifted {
      assert xs[k] == xs[1..][k - 1];
      assert k - 1 in rest;
      var j :| 0 <= j < |rest| && rest[j] == k - 1;
      assert shifted[j] == k;
    }
  }

  /** Every index moved one position right. */
  function Shift(idx: seq<nat>): (r: seq<nat>)
    ensures |r| == |idx| && forall j :: 0 <= j < |r| ==> r[j] == idx[j] + 1 && r[j] > 0
    ensures StrictlyIncreasing(idx) ==> StrictlyIncreasing(r)
  {
    seq(|idx|, j requires 0 <= j < |idx| => idx[j] + 1)
  }

  /** Concatenation distributes over FilterMap. */
  lemma {:induction false} FilterMapAppend<A, B>(xs: seq<A>, ys: seq<A>, f: A -> Option<B>)
    ensures FilterMap(xs + ys, f) == FilterMap(xs, f) + FilterMap(ys, f)
  {
    if |xs| == 0 {
      assert xs + ys == ys;
    } else {
      assert (xs + ys)[1..] == xs[1..] + ys;
      FilterMapAppend(xs[1..], ys, f);
    }
  }

  /** Nothing kept, nothing produced. */
  lemma {:induction false} FilterMapNothingKept<A, B>(xs: seq<A>, f: A -> Option<B>)
    requires forall k :: 0 <= k < |xs| ==> f(xs[k]).None?
    ensures FilterMap(xs, f) == []
  {
    if |xs| > 0 {
      assert forall k :: 0 <= k < |xs| - 1 ==> xs[1..][k] == xs[k + 1];
      FilterMapNothingKept(xs[1..], f);
    }
  }
}
