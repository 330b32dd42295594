/** numpy's `argmax` over the probability vector returned by the classifier.
    The vector has shape (1, n); `argmax` without an axis flattens it, so the
    index it returns is a position in a sequence of n scores. */
module Numpy {
  import opened Wrappers

  /** `k` is the first position holding the largest score of `s`: every score
      is at most `s[k]`, and every score before `k` is strictly below it. */
  ghost predicate IsFirstMax(s: seq<real>, k: nat)
  {
    && k < |s|
    && (forall j | 0 <= j < |s| :: s[j] <= s[k])
    && (forall j | 0 <= j < k :: s[j] < s[k])
  }

  /** numpy's `argmax`: a left-to-right scan that moves to a later position
      only when its score is strictly larger, so ties keep the first index.
      An empty vector has no arg-max (numpy raises `ValueError`). */
  function ArgMax(s: seq<real>): (r: Option<nat>)
    ensures r.None? <==> |s| == 0
    ensures r.Some? ==> IsFirstMax(s, r.value)
  {
    if |s| == 0 then None
    else
      match ArgMax(s[..|s| - 1])
      case None => Some(0)
      case Some(k) => if s[k] < s[|s| - 1] then Some(|s| - 1) else Some(k)
  }

  /** The first-maximum property picks exactly one index: any index having it
      is the one `ArgMax` returns. */
  lemma FirstMaxIsArgMax(s: seq<real>, k: nat)
    requires IsFirstMax(s, k)
    ensures ArgMax(s) == Some(k)
  {
  }

  /** Appending a score no larger than the current maximum, an equal one
      included, never moves the arg-max: ties keep the earlier index. */
  lemma {:induction false} LaterTieKeepsArgMax(s: seq<real>, x: real)
    requires ArgMax(s).Some? && x <= s[ArgMax(s).value]
    ensures ArgMax(s + [x]) == ArgMax(s)
  {
    assert (s + [x])[..|s|] == s;
  }
}
