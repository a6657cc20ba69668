/** The confidence-threshold filter shared by the captures and the live overlay. */
module Threshold {
  import opened Shapes

  /** `predictions.filter(p => p.score >= threshold)`. */
  function AboveThreshold(preds: seq<Prediction>, threshold: real): (kept: seq<Prediction>)
    ensures |kept| <= |preds|
  {
    if preds == [] then []
    else (if preds[0].score >= threshold then [preds[0]] else []) + AboveThreshold(preds[1..], threshold)
  }

  /**
   * The filter keeps exactly the predictions whose score reaches the
   * threshold: everything kept comes from the input and reaches it, and
   * everything in the input that reaches it is kept.
   */
  lemma {:induction false} AboveThresholdKeeps(preds: seq<Prediction>, threshold: real)
    ensures forall k :: 0 <= k < |AboveThreshold(preds, threshold)| ==>
      AboveThreshold(preds, threshold)[k] in preds && AboveThreshold(preds, threshold)[k].score >= threshold
    ensures forall p :: p in preds && p.score >= threshold ==> p in AboveThreshold(preds, threshold)
  {
    if preds != [] {
      AboveThresholdKeeps(preds[1..], threshold);
      assert preds == [preds[0]] + preds[1..];
    }
  }

  /** Filtering a concatenation filters each part in place: the filter keeps the input order. */
  lemma {:induction false} AboveThresholdAppend(a: seq<Prediction>, b: seq<Prediction>, threshold: real)
    ensures AboveThreshold(a + b, threshold) == AboveThreshold(a, threshold) + AboveThreshold(b, threshold)
  {
    if a == [] {
      assert a + b == b;
    } else {
      var head := if a[0].score >= threshold then [a[0]] else [];
      assert (a + b)[0] == a[0];
      assert (a + b)[1..] == a[1..] + b;
      AboveThresholdAppend(a[1..], b, threshold);
      calc {
        AboveThreshold(a + b, threshold);
        head + AboveThreshold(a[1..] + b, threshold);
        head + (AboveThreshold(a[1..], threshold) + AboveThreshold(b, threshold));
        (head + AboveThreshold(a[1..], threshold)) + AboveThreshold(b, threshold);
        AboveThreshold(a, threshold) + AboveThreshold(b, threshold);
      }
    }
  }

  /** A prediction is kept exactly when its score reaches the threshold. */
  lemma {:induction false} AboveThresholdSingle(p: Prediction, threshold: real)
    ensures AboveThreshold([p], threshold) == if p.score >= threshold then [p] else []
  {
    assert [p][1..] == [];
  }

  /**
   * Raising the threshold only drops more predictions: filtering at `low`
   * and then at `high` is filtering at `high`; for `low == high` the
   * filter is idempotent.
   */
  lemma {:induction false} RaiseThreshold(preds: seq<Prediction>, low: real, high: real)
    requires low <= high
    ensures AboveThreshold(AboveThreshold(preds, low), high) == AboveThreshold(preds, high)
  {
    if preds != [] {
      var head := if preds[0].score >= low then [preds[0]] else [];
      AboveThresholdAppend(head, AboveThreshold(preds[1..], low), high);
      if preds[0].score >= low {
        AboveThresholdSingle(preds[0], high);
      }
      RaiseThreshold(preds[1..], low, high);
    }
  }
}
