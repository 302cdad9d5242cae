/** When the api.js scroll loop runs an extraction pass. The loop advances
    `reviewsScrapped` by one batch (or by what remains) per iteration and runs
    a pass when `reviewsScrapped % scrollThreshold == 0` or the total is
    reached; every pass moves the threshold up by one batch. */
module Schedule {
  import opened Admission

  /** `reviewsScrapped` after one more iteration: `min(batchSize, remaining)`
      more reviews. */
  function NextScrapped(scrapped: nat, total: nat, batchSize: nat): (n: nat)
    requires scrapped < total && batchSize >= 1
    ensures scrapped < n <= total
    ensures n == total || n == scrapped + batchSize
    ensures n - scrapped <= batchSize
  {
    var remaining := total - scrapped;
    scrapped + (if remaining < batchSize then remaining else batchSize)
  }

  /** `n % d == 0` for `d >= 1`, by repeated subtraction. */
  function Divides(d: nat, n: nat): bool
    requires d >= 1
    decreases n
  {
    if n == 0 then true else if n < d then false else Divides(d, n - d)
  }

  lemma {:induction false} DividesIsRemainderZero(d: nat, n: nat)
    requires d >= 1
    ensures Divides(d, n) <==> n % d == 0
    decreases n
  {
    if n >= d {
      DividesIsRemainderZero(d, n - d);
      var q, r := (n - d) / d, (n - d) % d;
      assert n == (q + 1) * d + r && 0 <= r < d;
      ModOfSum(q + 1, d, r);
    }
  }

  /** Euclidean division is unique: `q * d + r` with `0 <= r < d` leaves
      remainder `r`. */
  lemma ModOfSum(q: nat, d: nat, r: nat)
    requires 0 <= r < d
    ensures (q * d + r) % d == r
  {
    var x := q * d + r;
    var q', r' := x / d, x % d;
    assert x == q' * d + r';
    var k := q - q';
    assert k * d == q * d - q' * d;
    assert k * d == r' - r;
    CancelFactor(k, 1, d);
    CancelFactor(-1, k, d);
  }

  /** The values of `reviewsScrapped` at which the remaining iterations run
      an extraction pass, from position `scrapped` with the current threshold.
      They are strictly increasing, and when any iteration remains the last
      one is the total: the final iteration always extracts. */
  function PassPoints(scrapped: nat, total: nat, batchSize: nat, threshold: nat): (ps: seq<nat>)
    requires batchSize >= 1 && threshold >= 1
    ensures scrapped >= total ==> ps == []
    ensures scrapped < total ==> |ps| >= 1 && ps[|ps| - 1] == total
    decreases total - scrapped
  {
    if scrapped >= total then []
    else
      var next := NextScrapped(scrapped, total, batchSize);
      if Divides(threshold, next) || next >= total then
        [next] + PassPoints(next, total, batchSize, threshold + batchSize)
      else
        PassPoints(next, total, batchSize, threshold)
  }

  /** Strictly increasing, every element above `lo` and at most `hi`. */
  predicate IncreasingWithin(ps: seq<nat>, lo: nat, hi: nat) {
    && (forall i :: 0 <= i < |ps| ==> lo < ps[i] <= hi)
    && (forall i, j :: 0 <= i < j < |ps| ==> ps[i] < ps[j])
  }

  /** The pass points lie past the current position and within the total,
      and each pass sees strictly more scrolled reviews than the one before. */
  lemma {:induction false} PassPointsIncreasing(scrapped: nat, total: nat, batchSize: nat, threshold: nat)
    requires batchSize >= 1 && threshold >= 1
    ensures IncreasingWithin(PassPoints(scrapped, total, batchSize, threshold), scrapped, total)
    decreases total - scrapped
  {
    if scrapped < total {
      var next := NextScrapped(scrapped, total, batchSize);
      var ps := PassPoints(scrapped, total, batchSize, threshold);
      if Divides(threshold, next) || next >= total {
        var rest := PassPoints(next, total, batchSize, threshold + batchSize);
        PassPointsIncreasing(next, total, batchSize, threshold + batchSize);
        assert ps == [next] + rest;
        forall i | 0 <= i < |ps|
          ensures scrapped < ps[i] <= total
        {
          if i > 0 { assert ps[i] == rest[i - 1]; }
        }
        forall i, j | 0 <= i < j < |ps|
          ensures ps[i] < ps[j]
        {
          assert ps[j] == rest[j - 1];
          if i > 0 { assert ps[i] == rest[i - 1]; }
        }
      } else {
        PassPointsIncreasing(next, total, batchSize, threshold);
        assert ps == PassPoints(next, total, batchSize, threshold);
      }
    }
  }

  /** One loop iteration, stated with the remainder test as api.js writes it. */
  lemma PassPointsStep(scrapped: nat, total: nat, batchSize: nat, threshold: nat)
    requires batchSize >= 1 && threshold >= 1 && scrapped < total
    ensures var next := NextScrapped(scrapped, total, batchSize);
      PassPoints(scrapped, total, batchSize, threshold)
        == if next % threshold == 0 || next >= total then [next] + PassPoints(next, total, batchSize, threshold + batchSize)
           else PassPoints(next, total, batchSize, threshold)
  {
    DividesIsRemainderZero(threshold, NextScrapped(scrapped, total, batchSize));
  }

  /** `from`, `from + batchSize`, `from + 2 * batchSize`, ... while below the
      total, and then the total itself. */
  function Ladder(from: nat, total: nat, batchSize: nat): (l: seq<nat>)
    requires batchSize >= 1
    ensures |l| >= 1 && l[|l| - 1] == total
    decreases total - from
  {
    if from >= total then [total] else [from] + Ladder(from + batchSize, total, batchSize)
  }

  lemma {:induction false} LadderAt(from: nat, total: nat, batchSize: nat, i: nat)
    requires batchSize >= 1 && i < |Ladder(from, total, batchSize)|
    ensures Ladder(from, total, batchSize)[i] == if from + i * batchSize < total then from + i * batchSize else total
    decreases total - from
  {
    if from < total && i > 0 {
      LadderAt(from + batchSize, total, batchSize, i - 1);
      assert from + batchSize + (i - 1) * batchSize == from + i * batchSize;
    }
  }

  /** When the total is a whole number `m` of batches past `from`, the
      ladder has `m + 1` rungs. */
  lemma {:induction false} LadderLength(from: nat, total: nat, batchSize: nat, m: nat)
    requires batchSize >= 1 && total == from + m * batchSize
    ensures |Ladder(from, total, batchSize)| == m + 1
    decreases m
  {
    if m > 0 {
      assert m * batchSize == batchSize + (m - 1) * batchSize;
      LadderLength(from + batchSize, total, batchSize, m - 1);
    }
  }

  /** Once a pass has run with `reviewsScrapped` equal to the threshold, the
      next threshold is one batch ahead, exactly where the next full batch
      ends: from then on every iteration extracts. */
  lemma {:induction false} EveryIterationAfterFirstPass(scrapped: nat, total: nat, batchSize: nat)
    requires batchSize >= 1 && scrapped < total
    ensures PassPoints(scrapped, total, batchSize, scrapped + batchSize) == Ladder(scrapped + batchSize, total, batchSize)
    decreases total - scrapped
  {
    var next := NextScrapped(scrapped, total, batchSize);
    var threshold := scrapped + batchSize;
    if next < total {
      assert next == threshold;
    }
    PassStep(scrapped, total, batchSize, threshold);
    var rest := PassPoints(next, total, batchSize, threshold + batchSize);
    if next < total {
      EveryIterationAfterFirstPass(next, total, batchSize);
      assert rest == Ladder(next + batchSize, total, batchSize);
      assert Ladder(threshold, total, batchSize) == [next] + Ladder(next + batchSize, total, batchSize);
    } else {
      assert rest == [];
      assert [next] + rest == [total];
      assert Ladder(threshold, total, batchSize) == [total];
    }
  }

  /** Before the first pass the threshold lies `m` whole batches ahead of
      `reviewsScrapped`: no pass runs until `reviewsScrapped` reaches it (or
      the total), and from there every iteration extracts. */
  lemma {:induction false} NoPassBeforeThreshold(scrapped: nat, m: nat, threshold: nat, total: nat, batchSize: nat)
    requires batchSize >= 1 && m >= 1 && scrapped < total
    requires threshold == scrapped + Batches(m, batchSize)
    ensures PassPoints(scrapped, total, batchSize, threshold) == Ladder(threshold, total, batchSize)
    decreases m
  {
    var next := NextScrapped(scrapped, total, batchSize);
    if next >= total {
      assert threshold >= total;
      PassStep(scrapped, total, batchSize, threshold);
    } else if m == 1 {
      assert Batches(m, batchSize) == batchSize + Batches(0, batchSize) == batchSize;
      assert next == threshold;
      PassStep(scrapped, total, batchSize, threshold);
      EveryIterationAfterFirstPass(next, total, batchSize);
    } else {
      assert next == scrapped + batchSize;
      assert Batches(m, batchSize) == batchSize + Batches(m - 1, batchSize);
      assert Batches(m - 1, batchSize) >= batchSize;
      assert threshold == next + Batches(m - 1, batchSize);
      SkipStep(scrapped, total, batchSize, threshold);
      NoPassBeforeThreshold(next, m - 1, threshold, total, batchSize);
    }
  }

  /** One iteration that reaches the threshold or the total runs a pass. */
  lemma PassStep(scrapped: nat, total: nat, batchSize: nat, threshold: nat)
    requires batchSize >= 1 && threshold >= 1 && scrapped < total
    requires NextScrapped(scrapped, total, batchSize) == threshold || NextScrapped(scrapped, total, batchSize) >= total
    ensures var next := NextScrapped(scrapped, total, batchSize);
      PassPoints(scrapped, total, batchSize, threshold) == [next] + PassPoints(next, total, batchSize, threshold + batchSize)
  {
    var next := NextScrapped(scrapped, total, batchSize);
    if next == threshold {
      assert Divides(threshold, next - threshold);
    }
  }

  /** One iteration that stays short of both the threshold and the total runs
      no pass. */
  lemma SkipStep(scrapped: nat, total: nat, batchSize: nat, threshold: nat)
    requires batchSize >= 1 && threshold >= 1 && scrapped < total
    requires NextScrapped(scrapped, total, batchSize) < threshold
    requires NextScrapped(scrapped, total, batchSize) < total
    ensures PassPoints(scrapped, total, batchSize, threshold) == PassPoints(NextScrapped(scrapped, total, batchSize), total, batchSize, threshold)
  {
    var next := NextScrapped(scrapped, total, batchSize);
    assert !Divides(threshold, next);
  }

  /** `m * batchSize`, written as repeated addition so that the inductive
      argument above stays within linear arithmetic. */
  function Batches(m: nat, batchSize: nat): (n: nat)
    ensures m >= 1 ==> n >= batchSize

  {
    if m == 0 then 0 else batchSize + Batches(m - 1, batchSize)
  }

  lemma {:induction false} BatchesIsProduct(m: nat, batchSize: nat)
    ensures Batches(m, batchSize) == m * batchSize
  {
    if m > 0 {
      BatchesIsProduct(m - 1, batchSize);
      assert m * batchSize == batchSize + (m - 1) * batchSize;
    }
  }

  /** The pass schedule api.js follows for a review total: a pass when the
      scrolled count first reaches the initial threshold, then after every
      further batch, and at the total. */
  lemma PassSchedule(total: nat)
    ensures var p := BatchAndScroll(total);
      PassPoints(0, total, p.batchSize, p.scrollThreshold)
        == if total == 0 then [] else Ladder(p.scrollThreshold, total, p.batchSize)
  {
    var p := BatchAndScroll(total);
    if total > 0 {
      ThresholdIsWholeBatches(total);
      BatchesIsProduct(ThresholdBatches(total), p.batchSize);
      NoPassBeforeThreshold(0, ThresholdBatches(total), p.scrollThreshold, total, p.batchSize);
    }
  }

  /** A ladder that ends a whole number `m` of batches past `from` has
      `m + 1` rungs, one batch apart. */
  lemma {:induction false} LadderOfWholeBatches(from: nat, batchSize: nat, m: nat)
    requires batchSize >= 1
    ensures var l := Ladder(from, from + Batches(m, batchSize), batchSize);
      |l| == m + 1 && forall i :: 0 <= i <= m ==> l[i] == from + Batches(i, batchSize)
    decreases m
  {
    var total := from + Batches(m, batchSize);
    if m > 0 {
      LadderOfWholeBatches(from + batchSize, batchSize, m - 1);
      var l := Ladder(from, total, batchSize);
      var rest := Ladder(from + batchSize, total, batchSize);
      assert total == from + batchSize + Batches(m - 1, batchSize);
      assert l == [from] + rest;
      forall i | 1 <= i <= m
        ensures l[i] == from + Batches(i, batchSize)
      {
        assert l[i] == rest[i - 1];
        assert Batches(i, batchSize) == batchSize + Batches(i - 1, batchSize);
      }
    }
  }


  /** A total that is a whole number of batches past a threshold of `j`
      batches: `m + 1` passes, at the threshold and one batch apart from
      there to the total. */
  lemma WholeBatchSchedule(batchSize: nat, j: nat, m: nat, total: nat)
    requires batchSize >= 1 && j >= 1
    requires total == Batches(j, batchSize) + Batches(m, batchSize)
    ensures var ps := PassPoints(0, total, batchSize, Batches(j, batchSize));
      |ps| == m + 1 && forall i :: 0 <= i <= m ==> ps[i] == Batches(j, batchSize) + Batches(i, batchSize)
  {
    var threshold := Batches(j, batchSize);
    NoPassBeforeThreshold(0, j, threshold, total, batchSize);
    LadderOfWholeBatches(threshold, batchSize, m);
  }

  /** 15 reviews: one scroll per iteration (see `BatchAndScrollExamples`),
      passes after the 10th scroll and after every scroll from there on. */
  lemma FifteenReviewsSchedule(total: nat)
    requires total == 15
    ensures PassPoints(0, total, 1, 10) == [10, 11, 12, 13, 14, 15]
  {
    BatchesIsProduct(10, 1);
    BatchesIsProduct(5, 1);
    WholeBatchSchedule(1, 10, 5, total);
    var ps := PassPoints(0, total, 1, 10);
    forall i | 0 <= i < 6
      ensures ps[i] == 10 + i
    {
      BatchesIsProduct(i, 1);
    }
  }

  /** 600 reviews: batches of 24, first pass at 48, then one every 24
      reviews, 24 passes in all, the last at 600. */
  lemma SixHundredReviewsSchedule(total: nat)
    requires total == 600
    ensures var ps := PassPoints(0, total, 24, 48);
      |ps| == 24 && forall i :: 0 <= i < 24 ==> ps[i] == 48 + 24 * i
  {
    BatchesIsProduct(2, 24);
    BatchesIsProduct(23, 24);
    WholeBatchSchedule(24, 2, 23, total);
    var ps := PassPoints(0, total, 24, 48);
    forall i | 0 <= i < 24
      ensures ps[i] == 48 + 24 * i
    {
      BatchesIsProduct(i, 24);
    }
  }
}
