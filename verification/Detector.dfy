/** The detector after inference: decoding followed by non-maximum suppression. */
module Detector {
  import opened Sequences
  import opened Geometry
  import opened Suppression
  import opened Decoder

  datatype Configuration = Configuration(scoreThreshold: real, nmsThreshold: real) {
    predicate Valid() {
      ValidThreshold(scoreThreshold) && ValidThreshold(nmsThreshold)
    }
  }

  function DetectSpec(m: ModelSpec, predictions: seq<real>, scale: real, c: Configuration, exp: Exponential):
    Outcome<seq<Detection>>
    requires m.Valid() && c.Valid()
  {
    match DecodeSpec(m, predictions, scale, c.scoreThreshold, exp)
    case InvalidArgument => InvalidArgument
    case Ok(candidates) => Ok(Nms(candidates, c.nmsThreshold))
  }

  method Detect(m: ModelSpec, predictions: seq<real>, scale: real, c: Configuration, exp: Exponential)
    returns (r: Outcome<seq<Detection>>)
    requires m.Valid() && c.Valid()
    ensures r == DetectSpec(m, predictions, scale, c, exp)
    ensures r.InvalidArgument? <==> |predictions| != m.CandidateCount() * (5 + m.classCount) || scale <= 0.0
    ensures r.Ok? ==> Descending(r.value) && forall d :: d in r.value ==> d.score >= c.scoreThreshold && d.score > 0.0
    ensures r.Ok? ==> forall i, j :: 0 <= i < j < |r.value| && r.value[i].classId == r.value[j].classId ==>
                        IntersectionOverUnion(r.value[j].box, r.value[i].box) <= c.nmsThreshold
  {
    hide Yields, IntersectionOverUnion, Decode, Nms;
    var candidates := DecodeDetections(m, predictions, scale, c.scoreThreshold, exp);
    if candidates.InvalidArgument? {
      return InvalidArgument;
    }
    ghost var rows :| Yields(m, predictions, m.CandidateCount(), rows, candidates.value, scale, c.scoreThreshold, exp);
    YieldedScores(m, predictions, m.CandidateCount(), rows, candidates.value, scale, c.scoreThreshold, exp);
    r := ApplyNms(candidates.value, c.nmsThreshold);
  }

  /** Raising the score threshold is the same as filtering the detections found with the lower one. */
  lemma ScoreThresholdCommutes(m: ModelSpec, predictions: seq<real>, scale: real,
                               low: real, high: real, nms: real, exp: Exponential)
    requires m.Valid() && WellSized(m, predictions) && scale > 0.0
    requires 0.0 <= low <= high <= 1.0 && ValidThreshold(nms)
    ensures var weak := DetectSpec(m, predictions, scale, Configuration(low, nms), exp);
            var strong := DetectSpec(m, predictions, scale, Configuration(high, nms), exp);
            weak.Ok? && strong == Ok(Filter(weak.value, AtLeast(high)))
  {
    DecodeCommutesWithThreshold(m, predictions, scale, low, high, exp);
    NmsCommutesWithScoreThreshold(Decode(m, predictions, scale, low, exp), nms, high);
  }

  /** An image resized by a further factor `k` yields the same detections with boxes divided by `k`. */
  lemma ImageScaleCommutes(m: ModelSpec, predictions: seq<real>, scale: real, k: real,
                           c: Configuration, exp: Exponential)
    requires m.Valid() && c.Valid() && WellSized(m, predictions) && scale > 0.0 && k > 0.0
    ensures var base := DetectSpec(m, predictions, scale, c, exp);
            base.Ok? && DetectSpec(m, predictions, k * scale, c, exp)
                        == Ok(Map(base.value, ScaleDetection(1.0 / k)))
  {
    PositiveQuotient(1.0, k);
    DecodeScales(m, predictions, k, scale, c.scoreThreshold, exp);
    NmsScales(Decode(m, predictions, scale, c.scoreThreshold, exp), c.nmsThreshold, 1.0 / k);
  }
}
