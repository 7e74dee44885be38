/** The two-threshold labelling of Data/Kasthuri11/threshold_labels.py: scores
    of a trusted classifier become training labels. High scores are positive
    examples (1), low scores negative examples (0), and scores in between are
    unused (-1). */
module Threshold {
  import opened Volume

  /** `THRESH_MANUAL`, the thresholds the script uses: low, then high. */
  const LowManual: real := 0.1
  const HighManual: real := 0.6

  /** The fill value of `-1 * np.ones(P.shape, dtype=np.uint8)`. NumPy 1.x
      casts by value, so the product is a signed array holding -1. */
  const Unused: int := -1

  /** The label the two ordered masked assignments leave for one score. */
  function ThresholdLabel(p: real, lo: real, hi: real): int {
    if p <= lo then 0 else if p >= hi then 1 else Unused
  }

  /** The body of the script: `Y` starts as all unused, then
      `Y[P >= hi] = 1`, then `Y[P <= lo] = 0`. */
  method ThresholdLabels(prob: array3<real>, lo: real, hi: real) returns (y: array3<int>)
    ensures fresh(y) && SameShape(y, prob)
    ensures forall z, r, c :: InBounds(prob, z, r, c) ==> y[z, r, c] == ThresholdLabel(prob[z, r, c], lo, hi)
  {
    y := new int[prob.Length0, prob.Length1, prob.Length2]((z, r, c) => Unused);
    forall z, r, c | 0 <= z < y.Length0 && 0 <= r < y.Length1 && 0 <= c < y.Length2 && prob[z, r, c] >= hi {
      y[z, r, c] := 1;
    }
    forall z, r, c | 0 <= z < y.Length0 && 0 <= r < y.Length1 && 0 <= c < y.Length2 && prob[z, r, c] <= lo {
      y[z, r, c] := 0;
    }
  }

  /** With `lo < hi` the three classes are disjoint and cover every score:
      1 exactly at or above `hi`, 0 exactly at or below `lo`, unused exactly
      strictly between. */
  lemma ClassesPartition(p: real, lo: real, hi: real)
    requires lo < hi
    ensures ThresholdLabel(p, lo, hi) == 1 <==> p >= hi
    ensures ThresholdLabel(p, lo, hi) == 0 <==> p <= lo
    ensures ThresholdLabel(p, lo, hi) == Unused <==> lo < p < hi
    ensures ThresholdLabel(p, lo, hi) in {Unused, 0, 1}
  {
  }

  /** The manual thresholds are ordered, so the partition holds for them. */
  lemma ManualClassesPartition(p: real)
    ensures ThresholdLabel(p, LowManual, HighManual) == 1 <==> p >= 0.6
    ensures ThresholdLabel(p, LowManual, HighManual) == 0 <==> p <= 0.1
    ensures ThresholdLabel(p, LowManual, HighManual) == Unused <==> 0.1 < p < 0.6
  {
    ClassesPartition(p, LowManual, HighManual);
  }

  /** When the thresholds overlap, the negative label wins: its assignment
      comes last. */
  lemma LowWinsOnOverlap(p: real, lo: real, hi: real)
    requires hi <= p <= lo
    ensures ThresholdLabel(p, lo, hi) == 0
  {
  }
}
