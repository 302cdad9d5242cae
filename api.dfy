/** The request flow of api.js: the counter-driven scroll loop
    `scrollPageWithRetry`, the single extraction pass it triggers, the
    wrapper `scrapeGoogleReviews`, and the POST handler that runs them after
    its request checks. */
module Api {
  import opened Results
  import opened Reviews
  import opened Admission
  import opened Schedule
  import opened Browser
  import opened Requests
  import Text

  const ExtractionError: string := "Error extracting Google Reviews"
  const ScrollingError: string := "Error scrolling page"
  const ScrapingError: string := "Error scraping Google Reviews"

  /** The review total the loop works towards: the count text parsed, 0 when
      it holds no digit. Without a count element the loop never starts. */
  function LoopTotal(script: PageScript): (t: nat)
    ensures script.countText.None? ==> t == 0
    ensures script.countText.Some? && Text.NoDigits(script.countText.value) ==> t == 0
    ensures script.countText.Some? && !Text.NoDigits(script.countText.value) ==> Text.ParseCount(script.countText.value) == Some(t)
  {
    if script.countText.Some? then TotalOf(script.countText.value) else 0
  }

  /** No scroll action with index in `[from, from + n)` fails. */
  predicate ScrollsUnfaulted(script: PageScript, from: nat, n: nat) {
    forall k :: from <= k < from + n ==> k !in script.scrollFails
  }

  /** No extraction pass with index in `[from, from + n)` fails. */
  predicate PassesUnfaulted(script: PageScript, from: nat, n: nat) {
    forall k :: from <= k < from + n ==> k !in script.passFails
  }

  /** The `scrolls` scroll actions from index `s0` and the `passes`
      extraction passes from index `p0` all succeed. */
  predicate Unfaulted(script: PageScript, s0: nat, scrolls: nat, p0: nat, passes: nat) {
    ScrollsUnfaulted(script, s0, scrolls) && PassesUnfaulted(script, p0, passes)
  }

  lemma ScrollsSplit(script: PageScript, from: nat, n: nat, m: nat)
    ensures ScrollsUnfaulted(script, from, n + m) <==> ScrollsUnfaulted(script, from, n) && ScrollsUnfaulted(script, from + n, m)
  {
  }

  lemma PassesSplit(script: PageScript, from: nat, n: nat, m: nat)
    ensures PassesUnfaulted(script, from, n + m) <==> PassesUnfaulted(script, from, n) && PassesUnfaulted(script, from + n, m)
  {
  }

  /** The loop runs to completion: the count element and the review list
      appear, and no scroll or pass it makes fails. */
  predicate LoopSucceeds(script: PageScript, s0: nat, p0: nat, batchSize: nat, scrollThreshold: nat)
    requires batchSize >= 1 && scrollThreshold >= 1
  {
    && script.countText.Some? && script.listShown
    && Unfaulted(script, s0, LoopTotal(script), p0, |LoopPasses(script, batchSize, scrollThreshold)|)
  }

  /** The passes the loop runs for a page, under a given batch plan. */
  function LoopPasses(script: PageScript, batchSize: nat, scrollThreshold: nat): seq<nat>
    requires batchSize >= 1 && scrollThreshold >= 1
  {
    PassPoints(0, LoopTotal(script), batchSize, scrollThreshold)
  }

  /** The state the loop of `scrollPageWithRetry` carries from one
      iteration to the next: the reviews scrolled so far, the pass threshold,
      the pause counter and the pauses made, the page's scroll and pass
      counters, and the scroll position of the last pass (`None` before the
      first). */
  datatype Cursor = Cursor(scrapped: nat, threshold: nat, counter: nat, pauses: nat,
                           scrolls: nat, passes: nat, lastPass: Option<nat>)

  /** A state the loop can be in, for a total of `total`. */
  predicate Ready(total: nat, c: Cursor) {
    c.threshold >= 1 && c.scrapped <= total && c.counter < 100
  }

  /** A pass runs at scroll position `next`: a multiple of the threshold, or
      the end. */
  predicate Due(next: nat, total: nat, threshold: nat)
    requires threshold >= 1
  {
    next % threshold == 0 || next >= total
  }

  /** One iteration: scroll one batch (every scroll must succeed), count the
      pauses and reset the pause counter once it reaches 100, and run a pass
      when one is due (it must succeed). `None` when the iteration fails. */
  function Step(script: PageScript, total: nat, batchSize: nat, c: Cursor): (r: Option<Cursor>)
    requires batchSize >= 1 && Ready(total, c) && c.scrapped < total
    ensures r.Some? ==> Ready(total, r.value) && r.value.scrapped > c.scrapped
  {
    var n := NextScrapped(c.scrapped, total, batchSize) - c.scrapped;
    if !ScrollsUnfaulted(script, c.scrolls, n) then None
    else if !Due(c.scrapped + n, total, c.threshold) then Some(Scrolled(c, n))
    else if c.passes in script.passFails then None
    else Some(Passed(Scrolled(c, n), batchSize))
  }

  /** The state after a batch of `n` scroll actions: `n` more reviews
      scrolled, the pauses made on the way, and the pause counter reset once
      it reaches 100. */
  function Scrolled(c: Cursor, n: nat): Cursor {
    c.(scrapped := c.scrapped + n, counter := if c.counter + n >= 100 then 0 else c.counter + n,
       pauses := c.pauses + (c.counter + n) / 100, scrolls := c.scrolls + n)
  }

  /** The state after a pass at the current scroll position: the threshold
      moves one batch on. */
  function Passed(c: Cursor, batchSize: nat): Cursor {
    c.(threshold := c.threshold + batchSize, passes := c.passes + 1, lastPass := Some(c.scrolls))
  }

  /** `Step` by cases, for callers that should not unfold it. */
  lemma StepCases(script: PageScript, total: nat, batchSize: nat, c: Cursor, n: nat)
    requires batchSize >= 1 && Ready(total, c) && c.scrapped < total
    requires n == (if total - c.scrapped < batchSize then total - c.scrapped else batchSize)
    ensures Step(script, total, batchSize, c)
      == if !ScrollsUnfaulted(script, c.scrolls, n) then None
         else if !Due(c.scrapped + n, total, c.threshold) then Some(Scrolled(c, n))
         else if c.passes in script.passFails then None
         else Some(Passed(Scrolled(c, n), batchSize))
  {
  }

  /** What a successful iteration leaves behind: the batch is scrolled, and
      the pass counter, the threshold and the last pass move on exactly when
      a pass was due. */
  lemma StepState(script: PageScript, total: nat, batchSize: nat, c: Cursor)
    requires batchSize >= 1 && Ready(total, c) && c.scrapped < total
    ensures var next := NextScrapped(c.scrapped, total, batchSize);
      var st := Step(script, total, batchSize, c);
      st.Some? ==>
        && st.value.scrapped == next
        && st.value.scrolls == c.scrolls + (next - c.scrapped)
        && st.value.passes == c.passes + (if Due(next, total, c.threshold) then 1 else 0)
        && st.value.threshold == c.threshold + (if Due(next, total, c.threshold) then batchSize else 0)
        && st.value.lastPass == if Due(next, total, c.threshold) then Some(c.scrolls + (next - c.scrapped)) else c.lastPass
    ensures var next := NextScrapped(c.scrapped, total, batchSize);
      Step(script, total, batchSize, c).None? <==>
        !ScrollsUnfaulted(script, c.scrolls, next - c.scrapped)
        || (Due(next, total, c.threshold) && !PassesUnfaulted(script, c.passes, 1))
  {
  }

  /** The scrolls and passes still ahead of `c` all succeed exactly when the
      next iteration succeeds and those still ahead of its state do. */
  lemma UnfaultedStep(script: PageScript, total: nat, batchSize: nat, c: Cursor)
    requires batchSize >= 1 && Ready(total, c) && c.scrapped < total
    ensures var st := Step(script, total, batchSize, c);
      Unfaulted(script, c.scrolls, total - c.scrapped, c.passes, |PassPoints(c.scrapped, total, batchSize, c.threshold)|) <==>
        (st.Some? && Unfaulted(script, st.value.scrolls, total - st.value.scrapped, st.value.passes,
                                 |PassPoints(st.value.scrapped, total, batchSize, st.value.threshold)|))
  {
    var next := NextScrapped(c.scrapped, total, batchSize);
    PassCountStep(c.scrapped, total, batchSize, c.threshold);
    ScrollsSplit(script, c.scrolls, next - c.scrapped, total - next);
    if Due(next, total, c.threshold) {
      PassesSplit(script, c.passes, 1, |PassPoints(next, total, batchSize, c.threshold + batchSize)|);
    }
    StepState(script, total, batchSize, c);
  }

  /** The loop run from state `c` to the end: the final state, or
      "Error scrolling page" from the first iteration that fails. */
  function RunLoop(script: PageScript, total: nat, batchSize: nat, c: Cursor): (r: Result<Cursor, string>)
    requires batchSize >= 1 && Ready(total, c)
    ensures r.Failure? ==> r.error == ScrollingError
    decreases total - c.scrapped
  {
    if c.scrapped == total then Success(c)
    else match Step(script, total, batchSize, c)
      case None => Failure(ScrollingError)
      case Some(c') => RunLoop(script, total, batchSize, c')
  }

  /** `scrollPageWithRetry` from page counters `s0` and `p0`: it fails at once
      without the count element or the review list, and otherwise runs the
      loop from zero towards the parsed total. */
  function ScrollOutcome(script: PageScript, batchSize: nat, scrollThreshold: nat, s0: nat, p0: nat): (r: Result<Cursor, string>)
    requires batchSize >= 1 && scrollThreshold >= 1
    ensures r.Failure? ==> r.error == ScrollingError
  {
    if script.countText.None? || !script.listShown then Failure(ScrollingError)
    else RunLoop(script, LoopTotal(script), batchSize, Cursor(0, scrollThreshold, 0, 0, s0, p0, None))
  }

  /** The object a pass at scroll position `at` returns. */
  function PassValue(script: PageScript, firm: string, parseFloat: FloatParser, at: Option<nat>): (r: Option<Envelope>)
    ensures r.Some? <==> at.Some?
  {
    if at.None? then None else Some(Wrap(firm, ExtractAll(script.RenderedAt(at.value), parseFloat)))
  }

  /** What a pass's object holds: it is consistent, names the firm, and its
      records are those of the reviews rendered at the pass's scroll position.
      Kept apart from `PassValue` so that the loop's proofs do not carry it. */
  lemma PassValueContents(script: PageScript, firm: string, parseFloat: FloatParser, at: nat)
    ensures PassValue(script, firm, parseFloat, Some(at)).Some?
    ensures Consistent(PassValue(script, firm, parseFloat, Some(at)).value)
    ensures PassValue(script, firm, parseFloat, Some(at)).value.firmName == Some(firm)
    ensures PassValue(script, firm, parseFloat, Some(at)).value.reviews == ExtractAll(script.RenderedAt(at), parseFloat)
  {
  }

  /** The loop completes exactly when none of the scroll actions it makes
      (one per review still to scroll) and none of the passes still due
      fails. */
  lemma {:induction false} RunLoopSucceeds(script: PageScript, total: nat, batchSize: nat, c: Cursor)
    requires batchSize >= 1 && Ready(total, c)
    ensures RunLoop(script, total, batchSize, c).Success?
      <==> Unfaulted(script, c.scrolls, total - c.scrapped, c.passes, |PassPoints(c.scrapped, total, batchSize, c.threshold)|)
    decreases total - c.scrapped
  {
    if c.scrapped < total {
      UnfaultedStep(script, total, batchSize, c);
      var st := Step(script, total, batchSize, c);
      if st.Some? {
        RunLoopSucceeds(script, total, batchSize, st.value);
      }
    }
  }

  /** A completed loop has scrolled once per review still to scroll and run
      every pass still due, and its last pass ran once the page was scrolled
      all the way: the final iteration always extracts. */
  lemma {:induction false} RunLoopState(script: PageScript, total: nat, batchSize: nat, c: Cursor)
    requires batchSize >= 1 && Ready(total, c)
    ensures var r := RunLoop(script, total, batchSize, c);
      r.Success? ==>
        && r.value.scrolls == c.scrolls + (total - c.scrapped)
        && r.value.passes == c.passes + |PassPoints(c.scrapped, total, batchSize, c.threshold)|
        && r.value.lastPass == if c.scrapped == total then c.lastPass else Some(c.scrolls + (total - c.scrapped))
    decreases total - c.scrapped
  {
    if c.scrapped < total {
      PassCountStep(c.scrapped, total, batchSize, c.threshold);
      StepState(script, total, batchSize, c);
      var st := Step(script, total, batchSize, c);
      if st.Some? {
        RunLoopState(script, total, batchSize, st.value);
      }
    }
  }

  /** With the pause counter and the pauses so far accounting for no more
      than the reviews scrolled, a completed loop pauses at most once per 100
      reviews of the total, and at least once when the total reaches 100. */
  lemma {:induction false} RunLoopPauses(script: PageScript, total: nat, batchSize: nat, c: Cursor)
    requires batchSize >= 1 && Ready(total, c)
    requires 100 * c.pauses + c.counter <= c.scrapped && (c.pauses == 0 ==> c.counter == c.scrapped)
    ensures var r := RunLoop(script, total, batchSize, c);
      r.Success? ==> 100 * r.value.pauses <= total && (total >= 100 ==> r.value.pauses >= 1)
    decreases total - c.scrapped
  {
    if c.scrapped < total {
      var next := NextScrapped(c.scrapped, total, batchSize);
      PauseBounds(c.counter, next - c.scrapped);
      var st := Step(script, total, batchSize, c);
      if st.Some? {
        RunLoopPauses(script, total, batchSize, st.value);
      }
    }
  }

  /** What `scrollPageWithRetry` promises: it succeeds exactly when the count
      element and the review list appear and none of its scrolls and passes
      fails; it then has scrolled once per review of the parsed total, run
      every scheduled pass, and its last pass ran over the fully scrolled
      page (no pass for a total of 0), and has paused at most once per
      100 reviews and at least once from 100 reviews on. */
  lemma ScrollOutcomeSpec(script: PageScript, batchSize: nat, scrollThreshold: nat,
                          s0: nat, p0: nat)
    requires batchSize >= 1 && scrollThreshold >= 1
    ensures var o := ScrollOutcome(script, batchSize, scrollThreshold, s0, p0);
      var t := LoopTotal(script);
      && (o.Success? <==> LoopSucceeds(script, s0, p0, batchSize, scrollThreshold))
      && (o.Success? ==> o.value.scrolls == s0 + t && o.value.passes == p0 + |LoopPasses(script, batchSize, scrollThreshold)|)
      && (o.Success? ==> o.value.lastPass == if t == 0 then None else Some(s0 + t))
      && (o.Success? ==> 100 * o.value.pauses <= t && (t >= 100 ==> o.value.pauses >= 1))
  {
    if script.countText.Some? && script.listShown {
      var t := LoopTotal(script);
      var c := Cursor(0, scrollThreshold, 0, 0, s0, p0, None);
      RunLoopSucceeds(script, t, batchSize, c);
      RunLoopState(script, t, batchSize, c);
      RunLoopPauses(script, t, batchSize, c);
    }
  }

  /** api.js's `getGoogleReviewsWithTimeoutAndRetry`: despite its name, one
      extraction pass and no retry. The records of the rendered reviews are
      wrapped, or the pass fails with its own message. */
  method GetGoogleReviewsWithTimeoutAndRetry(page: Page, firm: string, parseFloat: FloatParser)
    returns (r: Result<Envelope, string>)
    modifies page
    ensures page.scrolls == old(page.scrolls) && page.passes == old(page.passes) + 1
    ensures r == if old(page.passes) in page.script.passFails then Failure(ExtractionError)
                 else Success(Wrap(firm, ExtractAll(page.Rendered(), parseFloat)))
  {
    var mapped := page.EvalReviews(parseFloat);
    match mapped
    case None =>
      r := Failure(ExtractionError);
    case Some(results) =>
      r := Success(Wrap(firm, DropNulls(results)));
  }

  /** `scrollPageWithRetry`: scroll one batch per iteration until the parsed
      total is reached, pausing after every 100 scroll actions, and run an
      extraction pass whenever the scrolled count is a multiple of the
      threshold or the total is reached. The value returned is the last
      pass's (`None` for the `{}` left when no pass ran); `pauses` counts the
      memory-management pauses. Any failure becomes "Error scrolling page". */
  method ScrollPageWithRetry(page: Page, firm: string, batchSize: nat, scrollThreshold: nat, parseFloat: FloatParser)
    returns (r: Result<Option<Envelope>, string>, pauses: nat)
    requires batchSize >= 1 && scrollThreshold >= 1
    modifies page
    ensures var o := ScrollOutcome(page.script, batchSize, scrollThreshold, old(page.scrolls), old(page.passes));
      && (r.Success? <==> o.Success?)
      && (r.Failure? ==> r.error == ScrollingError)
      && (r.Success? ==> r.value == PassValue(page.script, firm, parseFloat, o.value.lastPass) && pauses == o.value.pauses)
      && (r.Success? ==> page.scrolls == o.value.scrolls && page.passes == o.value.passes)
  {
    var s := page.script;
    pauses := 0;
    if s.countText.None? || !s.listShown {
      return Failure(ScrollingError), pauses;
    }
    var totalReviews := TotalOf(s.countText.value);
    ghost var outcome := RunLoop(s, totalReviews, batchSize, Cursor(0, scrollThreshold, 0, 0, page.scrolls, page.passes, None));
    ghost var lastPass: Option<nat> := None;
    var reviewsScrapped: nat := 0;
    var pauseIntervalCounter: nat := 0;
    var threshold: nat := scrollThreshold;
    var totalReviewsResult: Option<Envelope> := None;
    while reviewsScrapped < totalReviews
      invariant page.script == s
      invariant Ready(totalReviews, Cursor(reviewsScrapped, threshold, pauseIntervalCounter, pauses, page.scrolls, page.passes, lastPass))
      invariant RunLoop(s, totalReviews, batchSize,
                        Cursor(reviewsScrapped, threshold, pauseIntervalCounter, pauses, page.scrolls, page.passes, lastPass)) == outcome
      invariant totalReviewsResult == PassValue(s, firm, parseFloat, lastPass)
      decreases totalReviews - reviewsScrapped
    {
      ghost var c := Cursor(reviewsScrapped, threshold, pauseIntervalCounter, pauses, page.scrolls, page.passes, lastPass);
      var ok;
      ok, reviewsScrapped, threshold, pauseIntervalCounter, pauses, totalReviewsResult, lastPass :=
        ScrollIteration(page, firm, parseFloat, totalReviews, batchSize,
                        reviewsScrapped, threshold, pauseIntervalCounter, pauses, totalReviewsResult, lastPass);
      if !ok {
        return Failure(ScrollingError), pauses;
      }
      ghost var c' := Cursor(reviewsScrapped, threshold, pauseIntervalCounter, pauses, page.scrolls, page.passes, lastPass);
      assert RunLoop(s, totalReviews, batchSize, c) == RunLoop(s, totalReviews, batchSize, c');
    }
    r := Success(totalReviewsResult);
  }

  /** One iteration of the loop of `scrollPageWithRetry`, on its variables:
      scroll a batch, run the pass when one is due and keep its object, and
      reset the pause counter once it reaches 100. It succeeds, and leaves the
      loop's variables and the page's counters, exactly as `Step` says. */
  method ScrollIteration(page: Page, firm: string, parseFloat: FloatParser, totalReviews: nat, batchSize: nat,
                         reviewsScrapped: nat, threshold: nat, pauseIntervalCounter: nat, pauses: nat,
                         totalReviewsResult: Option<Envelope>, ghost lastPass: Option<nat>)
    returns (ok: bool, reviewsScrapped': nat, threshold': nat, pauseIntervalCounter': nat, pauses': nat,
             totalReviewsResult': Option<Envelope>, ghost lastPass': Option<nat>)
    requires batchSize >= 1 && reviewsScrapped < totalReviews
    requires Ready(totalReviews, Cursor(reviewsScrapped, threshold, pauseIntervalCounter, pauses, page.scrolls, page.passes, lastPass))
    requires totalReviewsResult == PassValue(page.script, firm, parseFloat, lastPass)
    modifies page
    ensures var st := Step(page.script, totalReviews, batchSize,
                           Cursor(reviewsScrapped, threshold, pauseIntervalCounter, pauses, old(page.scrolls), old(page.passes), lastPass));
      && ok == st.Some?
      && (ok ==> st.value == Cursor(reviewsScrapped', threshold', pauseIntervalCounter', pauses', page.scrolls, page.passes, lastPass'))
      && (ok ==> totalReviewsResult' == PassValue(page.script, firm, parseFloat, lastPass'))
  {
    ghost var s := page.script;
    ghost var c := Cursor(reviewsScrapped, threshold, pauseIntervalCounter, pauses, page.scrolls, page.passes, lastPass);
    reviewsScrapped', threshold', totalReviewsResult', lastPass' := reviewsScrapped, threshold, totalReviewsResult, lastPass;
    var remainingReviews := totalReviews - reviewsScrapped;
    var currentBatchSize := if remainingReviews < batchSize then remainingReviews else batchSize;
    StepCases(s, totalReviews, batchSize, c, currentBatchSize);
    ok, pauseIntervalCounter', pauses' := ScrollBatch(page, currentBatchSize, pauseIntervalCounter, pauses);
    if !ok {
      return;
    }
    reviewsScrapped' := reviewsScrapped + currentBatchSize;
    ghost var scrolled := Scrolled(c, currentBatchSize);
    assert scrolled == Cursor(reviewsScrapped', threshold, if pauseIntervalCounter' >= 100 then 0 else pauseIntervalCounter',
                              pauses', page.scrolls, c.passes, lastPass);
    ghost var due := Due(reviewsScrapped', totalReviews, threshold);
    ok, threshold', totalReviewsResult', lastPass' :=
      PassIfDue(page, firm, parseFloat, reviewsScrapped', totalReviews, threshold, batchSize, totalReviewsResult, lastPass);
    if !ok {
      return;
    }
    pauseIntervalCounter' := if pauseIntervalCounter' >= 100 then 0 else pauseIntervalCounter';
    assert Step(s, totalReviews, batchSize, c) == Some(if due then Passed(scrolled, batchSize) else scrolled);
  }

  /** The pass at the end of an iteration of `scrollPageWithRetry`: when the
      scrolled count is a multiple of the threshold or the total is reached,
      run one pass, keep its object and move the threshold one batch on;
      otherwise change nothing. It fails exactly when a due pass throws. */
  method PassIfDue(page: Page, firm: string, parseFloat: FloatParser, reviewsScrapped: nat, totalReviews: nat,
                   threshold: nat, batchSize: nat, totalReviewsResult: Option<Envelope>, ghost lastPass: Option<nat>)
    returns (ok: bool, threshold': nat, totalReviewsResult': Option<Envelope>, ghost lastPass': Option<nat>)
    requires threshold >= 1
    modifies page
    ensures page.scrolls == old(page.scrolls)
    ensures !Due(reviewsScrapped, totalReviews, threshold) ==>
      && ok && page.passes == old(page.passes)
      && threshold' == threshold && totalReviewsResult' == totalReviewsResult && lastPass' == lastPass
    ensures Due(reviewsScrapped, totalReviews, threshold) ==>
      && ok == (old(page.passes) !in page.script.passFails) && page.passes == old(page.passes) + 1
      && (ok ==> threshold' == threshold + batchSize && lastPass' == Some(page.scrolls)
                 && totalReviewsResult' == PassValue(page.script, firm, parseFloat, lastPass'))
  {
    threshold', totalReviewsResult', lastPass' := threshold, totalReviewsResult, lastPass;
    ok := true;
    if reviewsScrapped % threshold == 0 || reviewsScrapped >= totalReviews {
      var pass := GetGoogleReviewsWithTimeoutAndRetry(page, firm, parseFloat);
      if pass.Failure? {
        return false, threshold', totalReviewsResult', lastPass';
      }
      totalReviewsResult' := Some(pass.value);
      lastPass' := Some(page.scrolls);
      threshold' := threshold + batchSize;
    }
  }

  /** One batch of the loop in terms of how many passes are still due: one
      fewer when a pass runs at the new scroll position, as many otherwise. */
  lemma PassCountStep(scrapped: nat, total: nat, batchSize: nat, threshold: nat)
    requires batchSize >= 1 && threshold >= 1 && scrapped < total
    ensures var next := NextScrapped(scrapped, total, batchSize);
      var due := |PassPoints(scrapped, total, batchSize, threshold)|;
      if next % threshold == 0 || next >= total
      then due == 1 + |PassPoints(next, total, batchSize, threshold + batchSize)|
      else due == |PassPoints(next, total, batchSize, threshold)|
  {
    PassPointsStep(scrapped, total, batchSize, threshold);
  }

  /** The inner `for` loop of `scrollPageWithRetry`: `n` scroll actions, each
      bumping the pause counter, with a pause whenever the counter reaches a
      multiple of 100. It stops at the first scroll that throws. */
  method ScrollBatch(page: Page, n: nat, counter: nat, pauses: nat)
    returns (ok: bool, counter': nat, pauses': nat)
    requires counter < 100
    modifies page
    ensures ok == ScrollsUnfaulted(page.script, old(page.scrolls), n)
    ensures ok ==> page.scrolls == old(page.scrolls) + n && page.passes == old(page.passes)
    ensures ok ==> counter' == counter + n && pauses' == pauses + counter' / 100
  {
    counter', pauses' := counter, pauses;
    var i := 0;
    while i < n
      invariant 0 <= i <= n
      invariant page.scrolls == old(page.scrolls) + i && page.passes == old(page.passes)
      invariant forall k :: old(page.scrolls) <= k < old(page.scrolls) + i ==> k !in page.script.scrollFails
      invariant counter' == counter + i
      invariant pauses' == pauses + counter' / 100
    {
      ok := page.Scroll();
      if !ok {
        return;
      }
      counter' := counter' + 1;
      if counter' % 100 == 0 {
        pauses' := pauses' + 1;
      }
      i := i + 1;
    }
    ok := true;
  }

  /** The pauses a batch adds to a counter below 100 number at most the
      counter's hundreds, and at least one once it reaches 100. */
  lemma PauseBounds(counter: nat, n: nat)
    requires counter < 100
    ensures 100 * ((counter + n) / 100) <= counter + n
    ensures counter + n >= 100 ==> (counter + n) / 100 >= 1
  {
  }

  /** What `scrapeGoogleReviews` yields for a page whose scroll and pass
      counters start at `s0` and `p0`, under the plan the handler computes:
      the object rebuilt around the last pass's reviews, or "Error scraping
      Google Reviews" when the loop fails or no pass ran (`{}.reviews`
      throws). */
  function ScrapeOutcome(script: PageScript, s0: nat, p0: nat, firm: string, parseFloat: FloatParser): (r: Result<Envelope, string>)
    ensures r.Failure? ==> r.error == ScrapingError
    ensures r.Success? <==> ScrapeSucceeds(script, s0, p0)
    ensures r.Success? ==> Consistent(r.value) && r.value.firmName == Some(firm)
  {
    var plan := BatchAndScroll(LoopTotal(script));
    ScrollOutcomeSpec(script, plan.batchSize, plan.scrollThreshold, s0, p0);
    match ScrollOutcome(script, plan.batchSize, plan.scrollThreshold, s0, p0)
    case Failure(_) => Failure(ScrapingError)
    case Success(c) =>
      match PassValue(script, firm, parseFloat, c.lastPass)
      case None => Failure(ScrapingError)
      case Some(e) => Success(Wrap(firm, e.reviews))
  }

  /** A successful scrape reports, in page order, the records of exactly the
      extractable reviews rendered once the page has been scrolled as many
      times as the parsed total, and says it succeeded exactly when there is
      at least one. */
  lemma ScrapeOutcomeContents(script: PageScript, s0: nat, p0: nat, firm: string, parseFloat: FloatParser)
    ensures var r := ScrapeOutcome(script, s0, p0, firm, parseFloat);
      r.Success? ==>
        var nodes := script.RenderedAt(s0 + LoopTotal(script));
        && r.value.reviews == ExtractAll(nodes, parseFloat)
        && r.value.totalCount <= |nodes|
        && (r.value.success == 1 <==> exists i :: 0 <= i < |nodes| && Extractable(nodes[i], parseFloat))
  {
    var plan := BatchAndScroll(LoopTotal(script));
    ScrollOutcomeSpec(script, plan.batchSize, plan.scrollThreshold, s0, p0);
    ExtractAllCounts(script.RenderedAt(s0 + LoopTotal(script)), parseFloat);
  }

  /** The loop, run under the handler's plan, completes at least one pass
      without a fault. */
  predicate ScrapeSucceeds(script: PageScript, s0: nat, p0: nat) {
    var plan := BatchAndScroll(LoopTotal(script));
    LoopTotal(script) > 0 && LoopSucceeds(script, s0, p0, plan.batchSize, plan.scrollThreshold)
  }

  /** A zero or unparseable total never yields reviews: the loop returns
      `{}` and the wrapper throws. */
  lemma NoTotalNoReviews(script: PageScript, s0: nat, p0: nat, firm: string, parseFloat: FloatParser)
    requires LoopTotal(script) == 0
    ensures ScrapeOutcome(script, s0, p0, firm, parseFloat) == Failure(ScrapingError)
  {
  }

  /** `scrapeGoogleReviews`: run the loop and rebuild the object around its
      reviews. */
  method ScrapeGoogleReviews(page: Page, firm: string, batchSize: nat, scrollThreshold: nat, parseFloat: FloatParser)
    returns (r: Result<Envelope, string>)
    requires (batchSize, scrollThreshold) == (BatchAndScroll(LoopTotal(page.script)).batchSize, BatchAndScroll(LoopTotal(page.script)).scrollThreshold)
    modifies page
    ensures r == ScrapeOutcome(page.script, old(page.scrolls), old(page.passes), firm, parseFloat)
    ensures r.Success? ==> page.scrolls == old(page.scrolls) + LoopTotal(page.script)
  {
    ghost var s0, p0 := page.scrolls, page.passes;
    var loop, _ := ScrollPageWithRetry(page, firm, batchSize, scrollThreshold, parseFloat);
    ScrollOutcomeSpec(page.script, batchSize, scrollThreshold, s0, p0);
    match loop
    case Failure(_) =>
      r := Failure(ScrapingError);
    case Success(None) =>
      r := Failure(ScrapingError);
    case Success(Some(totalReviews)) =>
      r := Success(Wrap(firm, totalReviews.reviews));
  }

  /** Rebuilding the object around a pass's reviews, as `scrapeGoogleReviews`
      does, gives back the same object. */
  lemma RewrapIdentity(firm: string, records: seq<Record>)
    ensures Wrap(firm, Wrap(firm, records).reviews) == Wrap(firm, records)
  {
  }

  /** `handleFreeGoogleReviews`. `acquired` tells whether a page was taken
      from the browser pool. The `If-Modified-Since` comparison and the gzip
      step enter as their outcomes. After the not-found response the handler
      does not return: it goes on reading the count and scrolling, and every
      later attempt to respond fails because a response was already sent, so
      the client keeps the 404. */
  method HandleFreeGoogleReviews(req: Request, envKey: Option<string>, configKey: Option<string>,
                                 page: Page, parseFloat: FloatParser, clientCopyCurrent: bool, gzipFails: bool)
    returns (resp: Response, acquired: bool)
    modifies page
    ensures var check := CheckRequest(req, envKey, configKey);
      && (acquired <==> check.None?)
      && (check.Some? ==> resp == check.value && page.scrolls == old(page.scrolls) && page.passes == old(page.passes))
    ensures acquired && !page.script.searchOk ==> resp == ErrorResponse(500, InternalErrorMessage)
    ensures acquired && page.script.searchOk && !page.script.linkFound ==> resp == ErrorResponse(404, NotFoundMessage)
    ensures acquired && page.script.searchOk && !page.script.linkFound && ScrapeSucceeds(page.script, old(page.scrolls), old(page.passes))
      ==> page.scrolls == old(page.scrolls) + LoopTotal(page.script)
    ensures acquired && page.script.searchOk && page.script.linkFound && !page.script.openOk ==> resp == ErrorResponse(500, InternalErrorMessage)
    ensures acquired && page.script.searchOk && page.script.linkFound && page.script.openOk ==>
      resp == ScrapedResponse(ScrapeOutcome(page.script, old(page.scrolls), old(page.passes), req.firm.value, parseFloat), clientCopyCurrent, gzipFails)
  {
    var check := CheckRequest(req, envKey, configKey);
    if check.Some? {
      return check.value, false;
    }
    acquired := true;
    var firm := req.firm.value;
    var s := page.script;
    // searchFirmAndNavigate
    if !s.searchOk {
      return ErrorResponse(500, InternalErrorMessage), acquired;
    }
    var sent: Option<Response> := None;
    if !s.linkFound {
      sent := Some(ErrorResponse(404, NotFoundMessage));
    } else if !s.openOk {
      return ErrorResponse(500, InternalErrorMessage), acquired;
    }
    // extractTotalReviews
    if s.countText.None? {
      return FirstResponse(sent, ErrorResponse(500, InternalErrorMessage)), acquired;
    }
    var totalReviews := TotalOf(s.countText.value);
    var plan := BatchAndScroll(totalReviews);
    var data := ScrapeGoogleReviews(page, firm, plan.batchSize, plan.scrollThreshold, parseFloat);
    if data.Failure? {
      return FirstResponse(sent, ErrorResponse(500, InternalErrorMessage)), acquired;
    }
    if clientCopyCurrent {
      return FirstResponse(sent, Response(304, Empty)), acquired;
    }
    if gzipFails {
      return FirstResponse(sent, ErrorResponse(500, InternalErrorMessage)), acquired;
    }
    resp := FirstResponse(sent, Response(200, Extracted(data.value)));
  }

  /** The response after a scrape: 500 when it failed, else 304 when the
      client's copy is current, else 500 when compression fails, else 200 with
      the object. */
  function ScrapedResponse(outcome: Result<Envelope, string>, clientCopyCurrent: bool, gzipFails: bool): (r: Response)
    ensures r.status == 200 <==> outcome.Success? && !clientCopyCurrent && !gzipFails
    ensures r.status == 200 ==> r.body == Extracted(outcome.value)
    ensures r.status != 200 ==> r.status in {304, 500}
  {
    if outcome.Failure? then ErrorResponse(500, InternalErrorMessage)
    else if clientCopyCurrent then Response(304, Empty)
    else if gzipFails then ErrorResponse(500, InternalErrorMessage)
    else Response(200, Extracted(outcome.value))
  }

  /** Express keeps the first response a handler sends. */
  function FirstResponse(sent: Option<Response>, next: Response): (r: Response)
    ensures sent.Some? ==> r == sent.value
    ensures sent.None? ==> r == next
  {
    if sent.Some? then sent.value else next
  }
}
