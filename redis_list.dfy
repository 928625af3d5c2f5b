/** The three Redis list commands the pipeline issues on `buffer:{channel}`,
    as functions of the list's contents. */
module RedisList {
  import opened Values

  /** `LRANGE key 0 n-1`: the first `n` elements, or all of a shorter list.
      A count of 0 would read `LRANGE key 0 -1`, the whole list, so the count
      is positive. */
  function Front<T>(xs: seq<T>, n: nat): (r: seq<T>)
    requires n > 0
    ensures |r| == Min(n, |xs|)
    ensures r == xs[..|r|]
  {
    if n <= |xs| then xs[..n] else xs
  }

  /** `LTRIM key k -1`: keep the elements from index `k` to the end; empty when
      `k` is past the end. */
  function TrimFront<T>(xs: seq<T>, k: nat): (r: seq<T>)
    ensures |r| == if k <= |xs| then |xs| - k else 0
    ensures xs[..|xs| - |r|] + r == xs
  {
    if k <= |xs| then xs[k..] else []
  }

  /** `LRANGE key -n -1`: the last `n` elements, or all of a shorter list
      (Redis clamps an out-of-range negative start to the head). A count of 0
      would read `LRANGE key 0 -1`, the whole list, so the count is positive. */
  function Last<T>(xs: seq<T>, n: nat): (r: seq<T>)
    requires n > 0
    ensures |r| == Min(n, |xs|)
    ensures r == xs[|xs| - |r|..]
  {
    if n <= |xs| then xs[|xs| - n..] else xs
  }

  /** Reading the front and then trimming exactly as many elements as were read
      removes precisely what was read: the two pieces put back together are the
      list. */
  lemma FrontThenTrim<T>(xs: seq<T>, n: nat)
    requires n > 0
    ensures Front(xs, n) + TrimFront(xs, |Front(xs, n)|) == xs
  {
    var k := |Front(xs, n)|;
    assert TrimFront(xs, k) == xs[k..];
    assert xs[..k] + xs[k..] == xs;
  }

  /** An element pushed at the tail between the read and the trim survives the
      trim: LTRIM counts from the head, so only what was read goes. */
  lemma TailPushSurvivesTrim<T>(xs: seq<T>, ys: seq<T>, n: nat)
    requires n > 0
    ensures TrimFront(xs + ys, |Front(xs, n)|) == TrimFront(xs, |Front(xs, n)|) + ys
  {
    var k := |Front(xs, n)|;
    assert TrimFront(xs + ys, k) == (xs + ys)[k..];
    assert TrimFront(xs, k) == xs[k..];
    assert (xs + ys)[k..] == xs[k..] + ys;
  }
}
