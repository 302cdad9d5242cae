/** The integer arithmetic api.js derives from a review total: the scroll batch
    size, the initial re-extraction threshold, and the rate limiter's quota.
    Totals come from `parseInt` and are whole numbers, so `Math.ceil(t / d)`
    is exact integer ceiling division here. */
module Admission {

  /** `Math.ceil(a / d)` for a whole `a >= 0`: enough `d`-sized parts to
      cover `a`, and one part fewer would not. */
  function CeilDiv(a: nat, d: nat): (q: nat)
    requires d > 0
    ensures d * q >= a
    ensures q > 0 ==> d * (q - 1) < a
  {
    var q, r := (a + d - 1) / d, (a + d - 1) % d;
    assert a + d - 1 == d * q + r;
    assert d * q == a - 1 - r + d;
    q
  }

  /** `CeilDiv(a, d)` is the least `q` with `d * q >= a`. */
  lemma CeilDivIsCeiling(a: nat, d: nat, q: nat)
    requires d > 0 && d * q >= a
    ensures q >= CeilDiv(a, d)
  {
  }

  /** `calculateBatchSize`: the number of scroll actions per loop iteration.
      Above 500 reviews the total is cut into at most 25 batches, above 100
      into at most 20, above 20 into at most 10, and below that each batch is
      one scroll; each batch is the smallest size that achieves the cut. */
  function BatchSize(totalReviews: int): (b: nat)
    ensures b >= 1
  {
    if totalReviews > 500 then CeilDiv(totalReviews, 25)
    else if totalReviews > 100 then CeilDiv(totalReviews, 20)
    else if totalReviews > 20 then CeilDiv(totalReviews, 10)
    else 1
  }

  /** The batch size is the ceiling of the total over 25, 20 or 10 batches,
      depending on the range, and 1 up to 20 reviews. */
  lemma BatchSizeRanges(totalReviews: int)
    ensures var b := BatchSize(totalReviews);
      && (totalReviews > 500 ==> 25 * (b - 1) < totalReviews <= 25 * b)
      && (100 < totalReviews <= 500 ==> 20 * (b - 1) < totalReviews <= 20 * b)
      && (20 < totalReviews <= 100 ==> 10 * (b - 1) < totalReviews <= 10 * b)
      && (totalReviews <= 20 ==> b == 1)
  {
  }

  /** The batch size is not monotone in the total: it drops where the
      divisor changes. */
  lemma BatchSizeDropsAtBoundaries()
    ensures BatchSize(100) == 10 && BatchSize(101) == 6
    ensures BatchSize(500) == 25 && BatchSize(501) == 21
  {
  }

  datatype BatchPlan = BatchPlan(batchSize: nat, scrollThreshold: nat)

  /** `calculateBatchAndScroll`: the batch size together with the number of
      scrolled reviews at which the first extraction pass is due. */
  function BatchAndScroll(totalReviews: int): (p: BatchPlan)
    ensures p.batchSize == BatchSize(totalReviews)
    ensures totalReviews <= 20 ==> p.scrollThreshold == 10
    ensures 20 < totalReviews <= 100 ==> p.scrollThreshold == p.batchSize
    ensures totalReviews > 100 ==> p.scrollThreshold == 2 * p.batchSize
  {
    if totalReviews > 500 then
      var b := CeilDiv(totalReviews, 25); BatchPlan(b, b * 2)
    else if totalReviews > 100 then
      var b := CeilDiv(totalReviews, 20); BatchPlan(b, b * 2)
    else if totalReviews > 20 then
      var b := CeilDiv(totalReviews, 10); BatchPlan(b, b * 1)
    else BatchPlan(1, 10)
  }

  /** The threshold is always a whole number of batches (10, 1 or 2 of them),
      which is what lets a scroll position reach it exactly. */
  lemma ThresholdIsWholeBatches(totalReviews: int)
    ensures var p := BatchAndScroll(totalReviews);
      p.scrollThreshold == ThresholdBatches(totalReviews) * p.batchSize
  {
  }

  function ThresholdBatches(totalReviews: int): (j: nat)
    ensures j >= 1
  {
    if totalReviews > 100 then 2 else if totalReviews > 20 then 1 else 10
  }

  lemma BatchAndScrollExamples()
    ensures BatchAndScroll(15) == BatchPlan(1, 10)
    ensures BatchAndScroll(60) == BatchPlan(6, 6)
    ensures BatchAndScroll(600) == BatchPlan(24, 48)
  {
  }

  // ---------------------------------------------------------------------
  // setupRateLimiter
  // ---------------------------------------------------------------------

  /** The options handed to the rate limiter: the window length in
      milliseconds and the most requests one client may make in it. */
  datatype RateLimit = RateLimit(windowMs: nat, max: nat)

  /** The review total the limiter is sized for, and its window in minutes. */
  const ReviewsCount: nat := 2800
  const WindowDurationInMinutes: nat := 1

  /** `setupRateLimiter`: as many requests per window as batches are needed
      to cover `reviewsCount` reviews. */
  function SetupRateLimiter(reviewsCount: nat, windowDurationInMinutes: nat): (q: RateLimit)
    ensures q.windowMs == windowDurationInMinutes * 60000
    ensures q.max * BatchSize(reviewsCount) >= reviewsCount
    ensures q.max > 0 ==> (q.max - 1) * BatchSize(reviewsCount) < reviewsCount
  {
    var batchSize := BatchSize(reviewsCount);
    var requestsNeeded := CeilDiv(reviewsCount, batchSize);
    RateLimit(windowDurationInMinutes * 60 * 1000, requestsNeeded)
  }

  /** The limiter installed on the endpoint admits 25 requests a minute. */
  lemma InstalledRateLimit()
    ensures BatchSize(ReviewsCount) == 112
    ensures SetupRateLimiter(ReviewsCount, WindowDurationInMinutes) == RateLimit(60000, 25)
  {
  }

  /** For any total the quota is at most the number of batches the batch
      size was chosen for: 25, 20 or 10, and the total itself when it is at
      most 20. */
  lemma QuotaWithinBatchCount(reviewsCount: nat)
    requires reviewsCount > 0
    ensures var m := SetupRateLimiter(reviewsCount, 1).max;
      && m >= 1
      && (reviewsCount > 500 ==> m <= 25)
      && (100 < reviewsCount <= 500 ==> m <= 20)
      && (20 < reviewsCount <= 100 ==> m <= 10)
      && (reviewsCount <= 20 ==> m == reviewsCount)
  {
    var b := BatchSize(reviewsCount);
    BatchSizeRanges(reviewsCount);
    var m := SetupRateLimiter(reviewsCount, 1).max;
    var d := if reviewsCount > 500 then 25 else if reviewsCount > 100 then 20 else if reviewsCount > 20 then 10 else reviewsCount;
    assert (m - 1) * b < d * b;
    CancelFactor(m - 1, d, b);
    if reviewsCount <= 20 {
      assert b == 1;
    }
  }

  lemma CancelFactor(x: int, y: int, b: int)
    requires b > 0 && x * b < y * b
    ensures x < y
  {
  }
}
