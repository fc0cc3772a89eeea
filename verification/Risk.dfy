// Risk results: a clamped sum of points and the bucket it falls into.

module Risk {

  datatype RiskBucket = Low | Medium | High | Critical

  datatype RiskResult = RiskResult(score: int, bucket: RiskBucket)

  function BucketFor(score: int): RiskBucket {
    if score >= 80 then Critical
    else if score >= 55 then High
    else if score >= 25 then Medium
    else Low
  }

  function Total(points: seq<int>): int {
    if points == [] then 0 else Total(points[..|points| - 1]) + points[|points| - 1]
  }

  /** A result the scorers can return. */
  predicate Scored(r: RiskResult) {
    0 <= r.score <= 100 && r.bucket == BucketFor(r.score)
  }

  method Finalize(points: seq<int>) returns (r: RiskResult)
    ensures Scored(r)
    ensures match r.bucket
            case Critical => 80 <= r.score <= 100
            case High => 55 <= r.score < 80
            case Medium => 25 <= r.score < 55
            case Low => 0 <= r.score < 25
    ensures 0 <= Total(points) <= 100 ==> r.score == Total(points)
    ensures Total(points) < 0 ==> r.score == 0
    ensures Total(points) > 100 ==> r.score == 100
  {
    var score := 0;
    for i := 0 to |points|
      invariant score == Total(points[..i])
    {
      assert points[..i + 1][..i] == points[..i];
      score := score + points[i];
    }
    assert points[..|points|] == points;
    if score < 0 {
      score := 0;
    }
    if score > 100 {
      score := 100;
    }
    r := RiskResult(score, BucketFor(score));
  }
}
