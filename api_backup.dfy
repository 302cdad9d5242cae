/** The older handler of api-backup.js: a scroll loop driven by the rendered
    review count, a retry loop that re-runs scroll and extraction up to three
    times, and a POST handler that launches its own browser into a
    module-level variable and closes whatever that variable holds on the way
    out. */
module ApiBackup {
  import opened Results
  import opened Reviews
  import opened Browser
  import opened Requests
  import Api

  /** Scroll actions issued together in each iteration of `scrollPage`. */
  const Burst: nat := 5
  /** `maxRetries`. */
  const MaxRetries: nat := 3
  const ExtractionFailed: string := "Error during Google Reviews extraction"

  // ---------------------------------------------------------------------
  // scrollPage
  // ---------------------------------------------------------------------

  /** Where a scroll run stops: whether it completed, and the page's scroll
      counter at that point. */
  datatype Run = Run(ok: bool, scrolls: nat)

  /** The `while` loop of `scrollPage` from `scrapped` reviews seen and a page
      that has had `scrolls` scroll actions: issue a burst of 5 scrolls (all
      of them run; the burst fails when any throws), then require the
      rendered count to exceed `scrapped` (otherwise the wait times out), and
      carry on from the count observed. */
  function Growth(script: PageScript, total: nat, scrapped: nat, scrolls: nat): (r: Run)
    ensures r.scrolls >= scrolls
    decreases if scrapped < total then total - scrapped else 0
  {
    if scrapped >= total then Run(true, scrolls)
    else if !Api.ScrollsUnfaulted(script, scrolls, Burst) then Run(false, scrolls + Burst)
    else
      var count := |script.RenderedAt(scrolls + Burst)|;
      if count <= scrapped then Run(false, scrolls + Burst)
      else Growth(script, total, count, scrolls + Burst)
  }

  /** `scrollPage` on a page with `s0` scroll actions behind it: it fails at
      once without the count element or the review list. */
  function ScrollRun(script: PageScript, s0: nat): (r: Run)
    ensures r.scrolls >= s0 && (r.scrolls - s0) % Burst == 0
    ensures r.ok ==> script.countText.Some? && script.listShown
    ensures r.ok ==> |script.RenderedAt(r.scrolls)| >= TotalOf(script.countText.value)
  {
    if script.countText.None? || !script.listShown then Run(false, s0)
    else
      GrowthBounds(script, TotalOf(script.countText.value), 0, s0);
      Growth(script, TotalOf(script.countText.value), 0, s0)
  }

  /** Every iteration issues exactly one burst and sees strictly more reviews
      than the one before, so a run from `scrapped` makes at most
      `total - scrapped` bursts. A completed run has seen at least `total`
      reviews: the count it last observed, or the one it started from when
      no burst was needed. */
  lemma {:induction false} GrowthBounds(script: PageScript, total: nat, scrapped: nat, scrolls: nat)
    ensures var r := Growth(script, total, scrapped, scrolls);
      && (r.scrolls - scrolls) % Burst == 0
      && (scrapped < total ==> r.scrolls - scrolls <= Burst * (total - scrapped))
      && (scrapped >= total ==> r == Run(true, scrolls))
      && (r.ok && r.scrolls > scrolls ==> |script.RenderedAt(r.scrolls)| >= total)
    decreases if scrapped < total then total - scrapped else 0
  {
    if scrapped < total && Api.ScrollsUnfaulted(script, scrolls, Burst) {
      var count := |script.RenderedAt(scrolls + Burst)|;
      if count > scrapped {
        GrowthBounds(script, total, count, scrolls + Burst);
      }
    }
  }

  /** The review count the loop holds after `j` bursts from scroll position
      `s0`: the count it started from, then the count rendered after each
      burst. */
  function Seen(script: PageScript, scrapped: nat, s0: nat, j: nat): nat {
    if j == 0 then scrapped else |script.RenderedAt(s0 + Burst * j)|
  }

  /** The first `k` bursts from `s0` each start below the total, none of their
      scroll actions throws, and each leaves strictly more reviews rendered
      than were counted before it. */
  predicate Progress(script: PageScript, total: nat, scrapped: nat, s0: nat, k: nat) {
    forall j :: 0 <= j < k ==> Advances(script, total, scrapped, s0, j)
  }

  /** Burst `j` starts below the total, none of its scroll actions throws,
      and it leaves more reviews rendered than were counted before it. */
  predicate Advances(script: PageScript, total: nat, scrapped: nat, s0: nat, j: nat) {
    && Seen(script, scrapped, s0, j) < total
    && Api.ScrollsUnfaulted(script, s0 + Burst * j, Burst)
    && Seen(script, scrapped, s0, j) < Seen(script, scrapped, s0, j + 1)
  }

  /** Burst `j` stops the loop: one of its scroll actions throws, or the
      wait for more reviews than the `j`-th count times out. */
  predicate Stalls(script: PageScript, scrapped: nat, s0: nat, j: nat) {
    !Api.ScrollsUnfaulted(script, s0 + Burst * j, Burst)
    || Seen(script, scrapped, s0, j + 1) <= Seen(script, scrapped, s0, j)
  }

  /** The counts seen from the position after the first burst are the outer
      counts one burst later, at the same scroll positions. */
  lemma SeenShift(script: PageScript, scrapped: nat, s0: nat, j: nat)
    ensures Seen(script, Seen(script, scrapped, s0, 1), s0 + Burst, j) == Seen(script, scrapped, s0, j + 1)
    ensures s0 + Burst + Burst * j == s0 + Burst * (j + 1)
  {
  }

  /** Burst `j + 1` of the outer loop is burst `j` of the loop that starts
      after the first burst. */
  lemma AdvancesShift(script: PageScript, total: nat, scrapped: nat, s0: nat, j: nat)
    ensures Advances(script, total, Seen(script, scrapped, s0, 1), s0 + Burst, j)
      == Advances(script, total, scrapped, s0, j + 1)
  {
    SeenShift(script, scrapped, s0, j);
    SeenShift(script, scrapped, s0, j + 1);
  }

  /** Burst `j + 1` of the outer loop stalls exactly when burst `j` of the
      loop that starts after the first burst does. */
  lemma StallsShift(script: PageScript, scrapped: nat, s0: nat, j: nat)
    ensures Stalls(script, Seen(script, scrapped, s0, 1), s0 + Burst, j) == Stalls(script, scrapped, s0, j + 1)
  {
    SeenShift(script, scrapped, s0, j);
    SeenShift(script, scrapped, s0, j + 1);
  }

  /** Progress over `k + 1` bursts is progress over the first burst followed
      by progress over `k` bursts from where it leaves the loop. */
  lemma ProgressShift(script: PageScript, total: nat, scrapped: nat, s0: nat, k: nat)
    ensures Progress(script, total, scrapped, s0, k + 1) <==>
      Advances(script, total, scrapped, s0, 0) && Progress(script, total, Seen(script, scrapped, s0, 1), s0 + Burst, k)
  {
    var next, s1 := Seen(script, scrapped, s0, 1), s0 + Burst;
    if Progress(script, total, scrapped, s0, k + 1) {
      forall j | 0 <= j < k
        ensures Advances(script, total, next, s1, j)
      {
        AdvancesShift(script, total, scrapped, s0, j);
      }
    }
    if Advances(script, total, scrapped, s0, 0) && Progress(script, total, next, s1, k) {
      forall j | 0 <= j < k + 1
        ensures Advances(script, total, scrapped, s0, j)
      {
        if j > 0 {
          AdvancesShift(script, total, scrapped, s0, j - 1);
        }
      }
    }
  }

  /** Where a scroll run stops, burst by burst: after `k` bursts, all of which
      made progress, either with the total reached (success) or with the
      last burst stalling below the total (failure). */
  lemma {:induction false} GrowthOutcome(script: PageScript, total: nat, scrapped: nat, s0: nat) returns (k: nat)
    ensures var r := Growth(script, total, scrapped, s0);
      && r.scrolls == s0 + Burst * k
      && (r.ok ==> Progress(script, total, scrapped, s0, k) && Seen(script, scrapped, s0, k) >= total)
      && (!r.ok ==> k >= 1 && Progress(script, total, scrapped, s0, k - 1)
                    && Seen(script, scrapped, s0, k - 1) < total && Stalls(script, scrapped, s0, k - 1))
    decreases if scrapped < total then total - scrapped else 0
  {
    if scrapped >= total || !Api.ScrollsUnfaulted(script, s0, Burst) || Seen(script, scrapped, s0, 1) <= scrapped {
      k := if scrapped >= total then 0 else 1;
    } else {
      var next, s1 := Seen(script, scrapped, s0, 1), s0 + Burst;
      assert Advances(script, total, scrapped, s0, 0);
      var r' := Growth(script, total, next, s1);
      assert Growth(script, total, scrapped, s0) == r';
      var k' := GrowthOutcome(script, total, next, s1);
      k := k' + 1;
      SeenShift(script, scrapped, s0, k');
      if r'.ok {
        ProgressShift(script, total, scrapped, s0, k');
      } else {
        ProgressShift(script, total, scrapped, s0, k' - 1);
        SeenShift(script, scrapped, s0, k' - 1);
        StallsShift(script, scrapped, s0, k' - 1);
      }
    }
  }

  /** A loop whose first `k` bursts make progress and reach the total
      completes after exactly those `k` bursts. */
  lemma {:induction false} GrowthCompletes(script: PageScript, total: nat, scrapped: nat, s0: nat, k: nat)
    requires Progress(script, total, scrapped, s0, k) && Seen(script, scrapped, s0, k) >= total
    ensures Growth(script, total, scrapped, s0) == Run(true, s0 + Burst * k)
    decreases k
  {
    if k > 0 {
      ProgressShift(script, total, scrapped, s0, k - 1);
      SeenShift(script, scrapped, s0, k - 1);
      GrowthCompletes(script, total, Seen(script, scrapped, s0, 1), s0 + Burst, k - 1);
      assert s0 + Burst + Burst * (k - 1) == s0 + Burst * k;
    }
  }

  /** A loop whose first `k` bursts make progress without reaching the total,
      and whose next burst stalls, fails right after that burst. */
  lemma {:induction false} GrowthStallsAt(script: PageScript, total: nat, scrapped: nat, s0: nat, k: nat)
    requires Progress(script, total, scrapped, s0, k) && Seen(script, scrapped, s0, k) < total
    requires Stalls(script, scrapped, s0, k)
    ensures Growth(script, total, scrapped, s0) == Run(false, s0 + Burst * (k + 1))
    decreases k
  {
    if k > 0 {
      ProgressShift(script, total, scrapped, s0, k - 1);
      SeenShift(script, scrapped, s0, k - 1);
      SeenShift(script, scrapped, s0, k);
      GrowthStallsAt(script, total, Seen(script, scrapped, s0, 1), s0 + Burst, k - 1);
      assert s0 + Burst + Burst * k == s0 + Burst * (k + 1);
    }
  }

  /** The loop completes exactly when some number of bursts, each free of
      throwing scroll actions and each raising the rendered count, reaches
      the total. */
  lemma GrowthSucceeds(script: PageScript, total: nat, scrapped: nat, s0: nat)
    ensures Growth(script, total, scrapped, s0).ok <==>
      exists k: nat :: Progress(script, total, scrapped, s0, k) && Seen(script, scrapped, s0, k) >= total
  {
    var k := GrowthOutcome(script, total, scrapped, s0);
    if exists k: nat :: Progress(script, total, scrapped, s0, k) && Seen(script, scrapped, s0, k) >= total {
      var k: nat :| Progress(script, total, scrapped, s0, k) && Seen(script, scrapped, s0, k) >= total;
      GrowthCompletes(script, total, scrapped, s0, k);
    }
  }

  /** `scrollPage` completes exactly when the count element and the review
      list appear and some number of bursts, each free of throwing scroll
      actions and each raising the rendered count, reaches the parsed total;
      otherwise it stops at the first burst that stalls. */
  lemma ScrollRunSucceeds(script: PageScript, s0: nat)
    ensures ScrollRun(script, s0).ok <==>
      && script.countText.Some? && script.listShown
      && exists k: nat :: Progress(script, TotalOf(script.countText.value), 0, s0, k)
                          && Seen(script, 0, s0, k) >= TotalOf(script.countText.value)
  {
    if script.countText.Some? && script.listShown {
      GrowthSucceeds(script, TotalOf(script.countText.value), 0, s0);
    }
  }

  /** A burst of scroll actions: `Promise.all` over 5 evaluations, taken
      one after the other. All 5 run; the burst succeeds when none throws. */
  method ScrollBurst(page: Page) returns (ok: bool)
    modifies page
    ensures ok == Api.ScrollsUnfaulted(page.script, old(page.scrolls), Burst)
    ensures page.scrolls == old(page.scrolls) + Burst && page.passes == old(page.passes)
  {
    ok := true;
    for i := 0 to Burst
      invariant page.scrolls == old(page.scrolls) + i && page.passes == old(page.passes)
      invariant ok == Api.ScrollsUnfaulted(page.script, old(page.scrolls), i)
    {
      var done := page.Scroll();
      ok := ok && done;
    }
  }

  /** `scrollPage`: burst, wait for growth, read the rendered count, until the
      count reaches the parsed total. It completes, and leaves the page's
      scroll counter, exactly as `ScrollRun` says. */
  method ScrollPage(page: Page) returns (ok: bool)
    modifies page
    ensures ok == ScrollRun(page.script, old(page.scrolls)).ok
    ensures page.scrolls == ScrollRun(page.script, old(page.scrolls)).scrolls && page.passes == old(page.passes)
  {
    var s := page.script;
    if s.countText.None? || !s.listShown {
      return false;
    }
    var totalReviews := TotalOf(s.countText.value);
    ghost var outcome := Growth(s, totalReviews, 0, page.scrolls);
    var reviewsScrapped: nat := 0;
    while reviewsScrapped < totalReviews
      invariant Growth(s, totalReviews, reviewsScrapped, page.scrolls) == outcome
      invariant page.passes == old(page.passes)
      decreases totalReviews - reviewsScrapped
    {
      var burst := ScrollBurst(page);
      if !burst {
        return false;
      }
      var newReviewsCount := page.RenderedCount();
      if newReviewsCount <= reviewsScrapped {
        return false;
      }
      reviewsScrapped := newReviewsCount;
    }
    ok := true;
  }

  // ---------------------------------------------------------------------
  // getGoogleReviewsWithTimeoutAndRetry
  // ---------------------------------------------------------------------

  /** Where one attempt leaves things: the filtered records when it
      succeeded, and the page's scroll and pass counters. */
  datatype AttemptEnd = AttemptEnd(records: Option<seq<Record>>, scrolls: nat, passes: nat)

  /** One attempt: the whole scroll, then one `$$eval` of the mapper over
      the rendered reviews and the null filter. A failed scroll runs no
      extraction. */
  function Attempt(script: PageScript, parseFloat: FloatParser, s0: nat, p0: nat): (a: AttemptEnd)
    ensures a.scrolls >= s0
    ensures a.records.Some? <==> ScrollRun(script, s0).ok && p0 !in script.passFails
    ensures a.records.Some? ==> a.records.value == ExtractAll(script.RenderedAt(a.scrolls), parseFloat)
    ensures a.scrolls == ScrollRun(script, s0).scrolls
    ensures a.passes == if ScrollRun(script, s0).ok then p0 + 1 else p0
  {
    var run := ScrollRun(script, s0);
    if !run.ok then AttemptEnd(None, run.scrolls, p0)
    else if p0 in script.passFails then AttemptEnd(None, run.scrolls, p0 + 1)
    else AttemptEnd(Some(ExtractAll(script.RenderedAt(run.scrolls), parseFloat)), run.scrolls, p0 + 1)
  }

  /** Where the retry loop leaves things: its result, how many attempts it
      made, how many 5-second delays it slept, and the page's counters. */
  datatype RetryEnd = RetryEnd(result: Result<seq<Record>, string>, attempts: nat, delays: nat, scrolls: nat, passes: nat)

  /** The retry loop from `retryCount` failed attempts: stop at the first
      successful attempt; after a failure, sleep and try again while fewer
      than three attempts have failed, else give up with the rewrapped
      error. */
  function Retry(script: PageScript, parseFloat: FloatParser, s0: nat, p0: nat, retryCount: nat): (r: RetryEnd)
    requires retryCount < MaxRetries
    ensures retryCount < r.attempts <= MaxRetries && r.delays == r.attempts - 1
    ensures r.result.Failure? ==> r.attempts == MaxRetries && r.result.error == ExtractionFailed
    ensures r.scrolls >= s0
    decreases MaxRetries - retryCount
  {
    var a := Attempt(script, parseFloat, s0, p0);
    if a.records.Some? then RetryEnd(Success(a.records.value), retryCount + 1, retryCount, a.scrolls, a.passes)
    else if retryCount + 1 < MaxRetries then Retry(script, parseFloat, a.scrolls, a.passes, retryCount + 1)
    else RetryEnd(Failure(ExtractionFailed), MaxRetries, retryCount, a.scrolls, a.passes)
  }

  /** The retry loop makes at most three attempts in all and sleeps only
      between two of them, never after the last; it fails only once all
      three have failed, and then with "Error during Google Reviews
      extraction"; and what it returns are the records extracted from the
      reviews rendered where the successful attempt's scrolling stopped. */
  lemma {:induction false} RetryBounds(script: PageScript, parseFloat: FloatParser, s0: nat, p0: nat, retryCount: nat)
    requires retryCount < MaxRetries
    ensures var r := Retry(script, parseFloat, s0, p0, retryCount);
      r.result.Success? ==> r.result.value == ExtractAll(script.RenderedAt(r.scrolls), parseFloat)
    decreases MaxRetries - retryCount
  {
    var a := Attempt(script, parseFloat, s0, p0);
    if a.records.None? && retryCount + 1 < MaxRetries {
      RetryBounds(script, parseFloat, a.scrolls, a.passes, retryCount + 1);
    }
  }

  /** The result is the first successful attempt's: when the first attempt
      succeeds there is no second attempt and no delay. */
  lemma FirstSuccessKept(script: PageScript, parseFloat: FloatParser, s0: nat, p0: nat)
    requires Attempt(script, parseFloat, s0, p0).records.Some?
    ensures var r := Retry(script, parseFloat, s0, p0, 0);
      r.attempts == 1 && r.delays == 0 && r.result == Success(Attempt(script, parseFloat, s0, p0).records.value)
  {
  }

  /** `n` attempts run one after the other, each from the page counters the
      previous one left, whatever their outcome. */
  function Attempts(script: PageScript, parseFloat: FloatParser, s0: nat, p0: nat, n: nat): (tries: seq<AttemptEnd>)
    ensures |tries| == n
    ensures n > 0 ==> tries[0] == Attempt(script, parseFloat, s0, p0)
    decreases n
  {
    if n == 0 then []
    else
      var a := Attempt(script, parseFloat, s0, p0);
      [a] + Attempts(script, parseFloat, a.scrolls, a.passes, n - 1)
  }

  /** After the first of `n` chained attempts come the `n - 1` attempts that
      start where it left the page. */
  lemma AttemptsTail(script: PageScript, parseFloat: FloatParser, s0: nat, p0: nat, n: nat)
    requires n > 0
    ensures var a := Attempt(script, parseFloat, s0, p0);
      var tries, rest := Attempts(script, parseFloat, s0, p0, n), Attempts(script, parseFloat, a.scrolls, a.passes, n - 1);
      forall j :: 1 <= j < n ==> tries[j] == rest[j - 1]
  {
  }

  /** The retry loop from `retryCount` failed attempts fails exactly when
      every attempt it could still make fails. */
  lemma {:induction false} RetryFails(script: PageScript, parseFloat: FloatParser, s0: nat, p0: nat, retryCount: nat)
    requires retryCount < MaxRetries
    ensures var tries := Attempts(script, parseFloat, s0, p0, MaxRetries - retryCount);
      Retry(script, parseFloat, s0, p0, retryCount).result.Failure? <==>
        forall j :: 0 <= j < |tries| ==> tries[j].records.None?
    decreases MaxRetries - retryCount
  {
    var a := Attempt(script, parseFloat, s0, p0);
    if a.records.None? && retryCount + 1 < MaxRetries {
      RetryFails(script, parseFloat, a.scrolls, a.passes, retryCount + 1);
      AttemptsTail(script, parseFloat, s0, p0, MaxRetries - retryCount);
      var tries := Attempts(script, parseFloat, s0, p0, MaxRetries - retryCount);
      var rest := Attempts(script, parseFloat, a.scrolls, a.passes, MaxRetries - retryCount - 1);
      if forall j :: 0 <= j < |rest| ==> rest[j].records.None? {
        forall j | 0 <= j < |tries|
          ensures tries[j].records.None?
        {
          if j > 0 {
            assert tries[j] == rest[j - 1];
          }
        }
      } else {
        var j :| 0 <= j < |rest| && rest[j].records.Some?;
        assert tries[j + 1] == rest[j];
      }
    } else {
      assert Attempts(script, parseFloat, s0, p0, MaxRetries - retryCount)[0] == a;
    }
  }

  /** A successful retry loop returns the first successful attempt's records,
      after exactly that many attempts, with the page where that attempt
      left it. */
  lemma {:induction false} RetryFirstSuccess(script: PageScript, parseFloat: FloatParser, s0: nat, p0: nat, retryCount: nat)
    requires retryCount < MaxRetries
    ensures var r := Retry(script, parseFloat, s0, p0, retryCount);
      var tries := Attempts(script, parseFloat, s0, p0, MaxRetries - retryCount);
      var i := r.attempts - retryCount - 1;
      r.result.Success? ==>
        && 0 <= i < |tries| && tries[i].records == Some(r.result.value)
        && (forall j :: 0 <= j < i ==> tries[j].records.None?)
        && r.scrolls == tries[i].scrolls && r.passes == tries[i].passes
    decreases MaxRetries - retryCount
  {
    var a := Attempt(script, parseFloat, s0, p0);
    if a.records.None? && retryCount + 1 < MaxRetries {
      RetryFirstSuccess(script, parseFloat, a.scrolls, a.passes, retryCount + 1);
      AttemptsTail(script, parseFloat, s0, p0, MaxRetries - retryCount);
      var r := Retry(script, parseFloat, a.scrolls, a.passes, retryCount + 1);
      assert Retry(script, parseFloat, s0, p0, retryCount) == r;
      var tries := Attempts(script, parseFloat, s0, p0, MaxRetries - retryCount);
      if r.result.Success? {
        var i := r.attempts - retryCount - 1;
        forall j | 0 <= j < i
          ensures tries[j].records.None?
        {
          if j > 0 {
            assert j - 1 < i - 1;
          }
        }
      }
    }
  }

  /** A failed retry loop leaves the page where its last attempt left it. */
  lemma {:induction false} RetryFailureState(script: PageScript, parseFloat: FloatParser, s0: nat, p0: nat, retryCount: nat)
    requires retryCount < MaxRetries
    ensures var r := Retry(script, parseFloat, s0, p0, retryCount);
      var tries := Attempts(script, parseFloat, s0, p0, MaxRetries - retryCount);
      r.result.Failure? ==> r.scrolls == tries[|tries| - 1].scrolls && r.passes == tries[|tries| - 1].passes
    decreases MaxRetries - retryCount
  {
    var a := Attempt(script, parseFloat, s0, p0);
    if a.records.None? && retryCount + 1 < MaxRetries {
      RetryFailureState(script, parseFloat, a.scrolls, a.passes, retryCount + 1);
      AttemptsTail(script, parseFloat, s0, p0, MaxRetries - retryCount);
    }
  }

  /** One attempt on the page, as the body of the retry loop's inner `try`. */
  method TryAttempt(page: Page, parseFloat: FloatParser) returns (records: Option<seq<Record>>)
    modifies page
    ensures var a := Attempt(page.script, parseFloat, old(page.scrolls), old(page.passes));
      records == a.records && page.scrolls == a.scrolls && page.passes == a.passes
  {
    var scrolled := ScrollPage(page);
    if !scrolled {
      return None;
    }
    var mapped := page.EvalReviews(parseFloat);
    if mapped.None? {
      return None;
    }
    records := Some(DropNulls(mapped.value));
  }

  /** `getGoogleReviewsWithTimeoutAndRetry` of api-backup.js. It returns the
      records and the number of 5-second delays slept, and leaves the page as
      `Retry` says. */
  method GetGoogleReviewsWithTimeoutAndRetry(page: Page, parseFloat: FloatParser)
    returns (r: Result<seq<Record>, string>, delays: nat)
    modifies page
    ensures var o := Retry(page.script, parseFloat, old(page.scrolls), old(page.passes), 0);
      r == o.result && delays == o.delays && page.scrolls == o.scrolls && page.passes == o.passes
  {
    ghost var outcome := Retry(page.script, parseFloat, page.scrolls, page.passes, 0);
    var retryCount: nat := 0;
    delays := 0;
    while retryCount < MaxRetries
      invariant retryCount < MaxRetries
      invariant delays == retryCount
      invariant Retry(page.script, parseFloat, page.scrolls, page.passes, retryCount) == outcome
      decreases MaxRetries - retryCount
    {
      var records := TryAttempt(page, parseFloat);
      if records.Some? {
        return Success(records.value), delays;
      }
      retryCount := retryCount + 1;
      if retryCount < MaxRetries {
        delays := delays + 1;
      } else {
        return Failure(ExtractionFailed), delays;
      }
    }
    // the loop only ends through one of the returns above
    assert false;
  }

  // ---------------------------------------------------------------------
  // The POST handler and its module-level browser
  // ---------------------------------------------------------------------

  /** What the handler sends once extraction is over: the gzipped array, or
      500 when extraction or compression fails. */
  function BackupResponse(data: Result<seq<Record>, string>, gzipFails: bool): (resp: Response)
    ensures resp.status == 200 <==> data.Success? && !gzipFails
    ensures resp.status == 200 ==> resp.body == Records(data.value)
    ensures resp.status != 200 ==> resp == ErrorResponse(500, InternalErrorMessage)
  {
    if data.Failure? || gzipFails then ErrorResponse(500, InternalErrorMessage)
    else Response(200, Records(data.value))
  }

  /** The server process: the module-level `browser` variable (the number
      of the browser it holds, `None` while it is undefined), how many
      browsers have been launched, and the browsers closed so far, in
      order. */
  class Server {
    var browser: Option<nat>
    var launched: nat
    var closed: seq<nat>

    /** A fresh process: `let browser;` leaves the variable undefined. */
    constructor ()
      ensures browser == None && launched == 0 && closed == []
    {
      browser := None;
      launched := 0;
      closed := [];
    }

    /** The `finally` block: close whatever browser the variable holds. The
        variable is not cleared afterwards. */
    method CloseBrowser()
      modifies this
      ensures browser == old(browser) && launched == old(launched)
      ensures closed == old(closed) + (if browser.Some? then [browser.value] else [])
    {
      if browser.Some? {
        closed := closed + [browser.value];
      }
    }

    /** `app.post("/api/free-google-reviews")` as written. `launchFails` is
        whether `puppeteer.launch` throws, before anything is assigned to the
        variable; `gzipFails` whether compression reports an error. A throw
        from `newPage` comes after the assignment, so it is a launched
        browser whose script fails its search (`Serve`'s `!searchOk` path):
        a 500, and the `finally` block closes the new browser. Every path
        ends in the `finally` block, which closes the browser the
        module-level variable holds: the one this request launched, or,
        when the request returned or failed before launching, the one a
        previous request left there. */
    method HandlePost(req: Request, envKey: Option<string>, configKey: Option<string>,
                      page: Page, parseFloat: FloatParser, launchFails: bool, gzipFails: bool)
      returns (resp: Response)
      requires page.scrolls == 0 && page.passes == 0
      modifies this, page
      ensures var check := CheckRequestBackup(req, envKey, configKey);
        && (check.Some? ==> resp == check.value)
        && (check.Some? || launchFails ==> browser == old(browser) && launched == old(launched))
        && (check.None? && !launchFails ==> browser == Some(old(launched)) && launched == old(launched) + 1)
        && closed == old(closed) + (if browser.Some? then [browser.value] else [])
      ensures var go := CheckRequestBackup(req, envKey, configKey).None? && !launchFails;
        && (CheckRequestBackup(req, envKey, configKey).None? && launchFails ==> resp == ErrorResponse(500, InternalErrorMessage))
        && (go && !page.script.searchOk ==> resp == ErrorResponse(500, InternalErrorMessage))
        && (go && page.script.searchOk && !page.script.linkFound ==>
              resp == Response(200, NoReviews(req.firm, NotFoundMessage)) && page.scrolls == 0 && page.passes == 0)
        && (go && page.script.searchOk && page.script.linkFound && !page.script.openOk ==> resp == ErrorResponse(500, InternalErrorMessage))
        && (go && page.script.searchOk && page.script.linkFound && page.script.openOk ==>
              resp == BackupResponse(Retry(page.script, parseFloat, 0, 0, 0).result, gzipFails))
    {
      var check := CheckRequestBackup(req, envKey, configKey);
      if check.Some? {
        resp := check.value;
        CloseBrowser();
        return;
      }
      if launchFails {
        resp := ErrorResponse(500, InternalErrorMessage);
        CloseBrowser();
        return;
      }
      browser := Some(launched);
      launched := launched + 1;
      resp := Serve(req, page, parseFloat, gzipFails);
      CloseBrowser();
    }

    /** The handler with the browser kept in a variable of its own, so that
        the `finally` block closes only a browser this request launched. */
    method HandlePostScoped(req: Request, envKey: Option<string>, configKey: Option<string>,
                            page: Page, parseFloat: FloatParser, launchFails: bool, gzipFails: bool)
      returns (resp: Response)
      requires page.scrolls == 0 && page.passes == 0
      modifies this, page
      ensures var check := CheckRequestBackup(req, envKey, configKey);
        && (check.Some? ==> resp == check.value)
        && (check.Some? || launchFails ==> launched == old(launched) && closed == old(closed))
        && (check.None? && !launchFails ==> launched == old(launched) + 1 && closed == old(closed) + [old(launched)])
        && browser == old(browser)
      ensures var go := CheckRequestBackup(req, envKey, configKey).None? && !launchFails;
        && (CheckRequestBackup(req, envKey, configKey).None? && launchFails ==> resp == ErrorResponse(500, InternalErrorMessage))
        && (go && !page.script.searchOk ==> resp == ErrorResponse(500, InternalErrorMessage))
        && (go && page.script.searchOk && !page.script.linkFound ==>
              resp == Response(200, NoReviews(req.firm, NotFoundMessage)) && page.scrolls == 0 && page.passes == 0)
        && (go && page.script.searchOk && page.script.linkFound && !page.script.openOk ==> resp == ErrorResponse(500, InternalErrorMessage))
        && (go && page.script.searchOk && page.script.linkFound && page.script.openOk ==>
              resp == BackupResponse(Retry(page.script, parseFloat, 0, 0, 0).result, gzipFails))
    {
      var check := CheckRequestBackup(req, envKey, configKey);
      if check.Some? {
        return check.value;
      }
      if launchFails {
        return ErrorResponse(500, InternalErrorMessage);
      }
      var own := launched;
      launched := launched + 1;
      resp := Serve(req, page, parseFloat, gzipFails);
      closed := closed + [own];
    }

    /** The part of the handler between the launch and the `finally` block:
        search, the not-found answer, opening the reviews, extraction and
        compression. Any throw becomes a 500. */
    method Serve(req: Request, page: Page, parseFloat: FloatParser, gzipFails: bool) returns (resp: Response)
      requires req.firm.Some? && page.scrolls == 0 && page.passes == 0
      modifies page
      ensures !page.script.searchOk ==> resp == ErrorResponse(500, InternalErrorMessage)
      ensures page.script.searchOk && !page.script.linkFound ==>
        resp == Response(200, NoReviews(req.firm, NotFoundMessage)) && page.scrolls == 0 && page.passes == 0
      ensures page.script.searchOk && page.script.linkFound && !page.script.openOk ==> resp == ErrorResponse(500, InternalErrorMessage)
      ensures page.script.searchOk && page.script.linkFound && page.script.openOk ==>
        resp == BackupResponse(Retry(page.script, parseFloat, 0, 0, 0).result, gzipFails)
    {
      var s := page.script;
      if !s.searchOk {
        return ErrorResponse(500, InternalErrorMessage);
      }
      if !s.linkFound {
        return Response(200, NoReviews(req.firm, NotFoundMessage));
      }
      if !s.openOk {
        return ErrorResponse(500, InternalErrorMessage);
      }
      var data, _ := GetGoogleReviewsWithTimeoutAndRetry(page, parseFloat);
      if data.Failure? {
        return ErrorResponse(500, InternalErrorMessage);
      }
      if gzipFails {
        return ErrorResponse(500, InternalErrorMessage);
      }
      resp := Response(200, Records(data.value));
    }
  }

  /** A page on which the business is not found: the handler answers at
      once and extracts nothing. */
  function NotFoundScript(): (s: PageScript)
    ensures s.searchOk && !s.linkFound
  {
    PageScript(true, false, false, None, false, (k: nat) => [], {}, {})
  }

  /** Two requests on one process, as written: a valid one (the business is
      not found), then one with a wrong key. The second request launches
      nothing, yet its `finally` block closes browser 0, which the first
      request already closed. */
  method StaleCloseWitness() returns (closedLog: seq<nat>)
    ensures closedLog == [0, 0]
  {
    var server := new Server();
    var first := new Page(NotFoundScript());
    var _ := server.HandlePost(Request(Some("k"), Some("firm")), Some("k"), None, first, (t: string) => None, false, false);
    var second := new Page(NotFoundScript());
    var _ := server.HandlePost(Request(Some("wrong"), Some("firm")), Some("k"), None, second, (t: string) => None, false, false);
    closedLog := server.closed;
  }

  /** The same two requests with the browser scoped to the request: browser
      0 is closed once, by the request that launched it. */
  method ScopedCloseWitness() returns (closedLog: seq<nat>)
    ensures closedLog == [0]
  {
    var server := new Server();
    var first := new Page(NotFoundScript());
    var _ := server.HandlePostScoped(Request(Some("k"), Some("firm")), Some("k"), None, first, (t: string) => None, false, false);
    var second := new Page(NotFoundScript());
    var _ := server.HandlePostScoped(Request(Some("wrong"), Some("firm")), Some("k"), None, second, (t: string) => None, false, false);
    closedLog := server.closed;
  }
}
