/** Score vectors produced by the opaque models, and the first-maximum
    selection that `np.argmax` and `ndarray.max` perform on them. */
module Scores {

  /** A non-empty vector of class scores: every softmax or `predict_proba`
      output has at least one class. */
  type Scores = s: seq<real> | |s| > 0 witness [0.0]

  /** The index `np.argmax` returns: the FIRST position holding the maximum. */
  function FirstArgMax(s: seq<real>): (k: nat)
    requires |s| > 0
    ensures k < |s|
    ensures forall j :: 0 <= j < |s| ==> s[j] <= s[k]
    ensures forall j :: 0 <= j < k ==> s[j] < s[k]
    decreases |s|
  {
    if |s| == 1 then 0
    else
      var k := FirstArgMax(s[..|s| - 1]);
      if s[|s| - 1] > s[k] then |s| - 1 else k
  }

  /** The largest score, as `ndarray.max` computes it. */
  function Max(s: seq<real>): (m: real)
    requires |s| > 0
    ensures m in s
    ensures forall j :: 0 <= j < |s| ==> s[j] <= m
  {
    s[FirstArgMax(s)]
  }
}
