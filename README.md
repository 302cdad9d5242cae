# Google Reviews scraper: a Dafny model

This project models the core of a small Node.js service that scrapes the Google
reviews of a business. It exposes one endpoint, `POST /api/free-google-reviews`,
which runs in two versions:

- **`api.js`** (the current handler):
  1. It checks the API key and the firm name.
  2. It takes a browser from a pool, searches Google for the firm and opens its review dialog.
  3. It parses the total review count from the page and sizes the scroll batches from it.
  4. A counter-driven loop then scrolls the review list. The loop runs an extraction pass whenever the
     scrolled count reaches a threshold or the total, pausing every 100 scrolls.
  5. The last pass's records are wrapped in an object `{success, firm_name, message, totalCount, reviews}`.
  6. That object is gzipped and returned.
- **`api-backup.js`** (the older handler):
  1. It launches a browser per request into a module-level variable.
  2. It scrolls in bursts of 5 until the rendered review count reaches the total,
     requiring strict growth after each burst.
  3. It retries the whole scroll and extraction up to three times, with a delay between attempts.
  4. It returns the bare array of records and closes the browser in a `finally` block.

Both versions use the same per-review mapper. A review becomes a record only when:

- it has a title link with an `href`;
- it has at least one star-rating element, with an `aria-label`;
- the rating text, with "Rated " and " out of 5," removed, does not parse to `NaN`.

Any other review becomes `null` and is filtered out.

The browser is an oracle. A `PageScript` fixes in advance everything a page will do:
- whether search, the reviews link and navigation succeed;
- the count text and whether the list appears;
- which review nodes are rendered after `k` scroll actions;
- which scroll actions and extraction passes throw.

A `Page` object counts the scroll actions and extraction passes made so far. The rating parser
(`parseFloat`) is a function parameter, and so are the outcomes of compression, of the
`If-Modified-Since` comparison and of launching a browser.

Modules, one file each:

- `results.dfy`, module `Results`: `Option`, `Result`
- `text.dfy`, module `Text`: `replace(/\D/g,"")` + `parseInt`, `trim()`, literal `replace`, `replace(/\?.*$/,"")`, `split("/").pop()`
- `reviews.dfy`, module `Reviews`: review nodes and records, the mapper, the null filter, the wrapping object
- `admission.dfy`, module `Admission`: batch size, batch plan, rate-limit quota
- `schedule.dfy`, module `Schedule`: the positions at which the `api.js` loop runs extraction passes
- `browser.dfy`, module `Browser`: `PageScript` and the `Page` class
- `requests.dfy`, module `Requests`: requests, key and firm checks, responses
- `api.dfy`, module `Api`: `scrollPageWithRetry`, `getGoogleReviewsWithTimeoutAndRetry`, `scrapeGoogleReviews`, `handleFreeGoogleReviews`
- `api_backup.dfy`, module `ApiBackup`: `scrollPage`, the retry loop, the POST handler with its module-level browser

### How the imperative parts are specified

Each loop in the source is a method with its own loop. Each loop is proved against a recursive
specification function:
- `Api.RunLoop` (over `Api.Step`) for `scrollPageWithRetry`;
- `ApiBackup.Growth` for `scrollPage`;
- `ApiBackup.Retry` for the retry loop.

The method's invariant says that running the specification from the current state gives the
same result as running it from the initial state. Separate induction lemmas then prove what the
specification guarantees, each against a definition that does not follow the loop's own recursion:
- for `scrollPageWithRetry`: the fault sets (`Api.RunLoopSucceeds`);
- for `scrollPage`: an explicit burst-by-burst progress predicate (`ApiBackup.GrowthSucceeds`, `ApiBackup.GrowthOutcome`);
- for the retry loop: the chain of up to three attempts, run without stopping (`ApiBackup.RetryFails`, `ApiBackup.RetryFirstSuccess`).

Those lemmas prove:
- when the loop succeeds;
- how far it scrolls;
- how many passes, pauses, attempts and delays it makes;
- which records it returns.

### Where the code and its documentation differ

The model follows the code in each of these cases:

- **Zero or unparseable total (`api.js`).** The loop returns `{}`, and `scrapeGoogleReviews` then
  throws on `{}.reviews.length`. The request therefore ends with 500, not with an empty result
  (`Api.NoTotalNoReviews`).
- **Pass schedule (`api.js`).** After the first pass, the threshold and the scrolled count move by
  the same batch. From then on every iteration extracts. With 15 reviews this gives passes
  after scrolls 10, 11, 12, 13, 14 and 15, not just at 10 and at the end
  (`Schedule.FifteenReviewsSchedule`).
- **Not found (`api.js`).** After the 404 the handler does not return. It goes on reading the
  count and scrolling, and later responses fail because one was already sent.
- **Empty title.** No version checks that the title is non-empty.

## Model

| member | source | states |
|---|---|---|
| Text.Digits | api.js:188 | `replace(/\D/g, "")` keeps only decimal digits, and is empty exactly when the text has none |
| Text.DigitsAppend | api.js:188 | digit extraction distributes over concatenation |
| Text.DecimalValueOfShowNat | api.js:188 | reading back the decimal numeral of `n` gives `n` |
| Text.ParseCount | api.js:188 | `parseInt` of the digits is `NaN` exactly when the text holds no digit |
| Text.CountRoundTrip | api.js:318 | a count text with a numeral between non-digit text ("1,234 reviews" style) parses back to that number |
| Text.TrimStart | api.js:400 | the result never starts with white space and is no longer than the input |
| Text.TrimStartSuffix | api.js:400 | the result is a suffix of the input, and what was removed is all white space |
| Text.TrimEnd | api.js:400 | the result never ends with white space and is no longer than the input |
| Text.TrimEndPrefix | api.js:400 | the result is a prefix of the input, and what was removed is all white space |
| Text.Trim | api.js:400 | the trimmed text neither starts nor ends with white space |
| Text.TrimStartPadded | api.js:400 | leading white space in front of a text is exactly what is removed |
| Text.TrimEndPadded | api.js:400 | trailing white space after a text is exactly what is removed |
| Text.TrimPadded | api.js:400 | trimming padding around a text that is not itself padded gives that text back |
| Text.IndexOfFrom | api.js:404-405 | the first occurrence at or after a position, or none at all |
| Text.IndexOf | api.js:404-405 | `indexOf` finds the first occurrence, and there is none before it |
| Text.RemoveFirst | api.js:404-405 | `replace` with a literal shortens the string by exactly the pattern when the pattern occurs, and leaves it unchanged otherwise |
| Text.RemoveFirstRestores | api.js:404-405 | what `replace` cuts out is exactly the first occurrence: the text before it is untouched, and putting the pattern back at that position restores the input |
| Text.RatingText | api.js:401-406 | the text handed to `parseFloat` is at most the two phrases shorter than the label, and a label holding neither phrase passes unchanged |
| Text.RatingTextOfLabel | api.js:401-406 | the label "Rated v out of 5," leaves exactly `v` for `parseFloat` |
| Text.QueryStartFrom | api.js:435 | the leftmost position at or after a start where `/\?.*$/` matches |
| Text.StripQuery | api.js:435 | the result is the prefix before the leftmost match of `/\?.*$/`, or the whole input when there is no match |
| Text.StripQueryOfUrl | api.js:435 | an address followed by `?query` loses exactly the query |
| Text.LastSegment | api.js:438-440 | `split("/").pop()` contains no slash |
| Text.LastSegmentSuffix | api.js:438-440 | the last segment is the suffix after the last slash, or the whole input |
| Text.LastSegmentOfPath | api.js:438-440 | `dir/seg` yields `seg` |
| Reviews.Extractable | api.js:397-408 | a review without a title link or without a rating element is rejected ("Missing required element"). An extractable review has a non-null `aria-label` and `href` (a null one makes `.replace` throw), and a rating that is not `NaN` |
| Reviews.Description | api.js:413-431 | exactly one description shape is read, chosen by the "More" control, and it is trimmed |
| Reviews.ExtractReview | api.js:391-463 | a record exists exactly when the node is extractable. Its rating is the parse of the label. Its title, description and date are the trimmed texts, and its picture is the `src` as read. Its reviewer URL is the stripped `href` plus `/reviews/`. Its id is the slash-free last segment, `null` for an empty path |
| Reviews.ReviewerLinkFields | api.js:433-440 | a contributor link `dir/seg?query` yields URL `dir/seg/reviews/` and id `seg` |
| Reviews.MapReviews | api.js:387-465 | one mapper entry per rendered review |
| Reviews.MapReviewsIndex | api.js:387-465 | entry `i` is the mapper applied to review `i`, so page order is kept |
| Reviews.MapReviewsAppend | api.js:387-465 | mapping distributes over concatenation |
| Reviews.DropNulls | api.js:467-469 | the filter never adds entries |
| Reviews.DropNullsCounts | api.js:467-469 | the filter keeps every entry exactly when none is `null`, and none exactly when all are |
| Reviews.DropNullsSound | api.js:467-469 | each kept record is one of the input entries |
| Reviews.DropNullsAppend | api.js:467-469 | filtering distributes over concatenation |
| Reviews.DropNullsSkip | api.js:467-469 | a `null` entry is dropped without affecting its neighbours |
| Reviews.ExtractAll | api.js:387-469 | a pass emits no more records than there are rendered reviews |
| Reviews.ExtractAllCounts | api.js:387-469 | a pass emits one record per review exactly when all are extractable, and none exactly when none is |
| Reviews.ExtractAllSound | api.js:387-469 | every emitted record comes from a rendered review whose label parsed to exactly its rating |
| Reviews.ExtractAllAppend | api.js:387-469 | records keep page order across runs of reviews |
| Reviews.FaultIsolation | api.js:456-462 | a review that cannot be extracted is dropped on its own, without changing the other records |
| Reviews.Wrap | api.js:471-477 | the object is consistent: `success` is 1 exactly when there are reviews, and `totalCount` counts them. It carries the firm and the records |
| Admission.CeilDiv | api.js:197 | `Math.ceil(a / d)` gives enough `d`-sized parts to cover `a`, and one part fewer would not |
| Admission.CeilDivIsCeiling | api.js:197 | every `q` with `d * q >= a` is at least `Math.ceil(a / d)`, so it is the least such `q` |
| Admission.BatchSize | api.js:289-299 | the batch size is at least 1 |
| Admission.BatchSizeRanges | api.js:289-299 | the batch is the ceiling of the total over 25, 20 or 10 in the three ranges, and 1 up to 20 reviews |
| Admission.BatchSizeDropsAtBoundaries | api.js:289-299 | the batch size drops from 10 to 6 at 101 reviews, and from 25 to 21 at 501 |
| Admission.BatchAndScroll | api.js:192-208 | the plan's batch is `calculateBatchSize`'s, and the threshold is 10, one batch or two batches by range |
| Admission.ThresholdIsWholeBatches | api.js:192-208 | the threshold is always a whole number of batches |
| Admission.BatchAndScrollExamples | api.js:192-208 | plans for 15, 60 and 600 reviews |
| Admission.SetupRateLimiter | api.js:273-285 | the window is in milliseconds, and the quota is the least number of batches covering the review count |
| Admission.InstalledRateLimit | api.js:48-52 | the configured 2800 reviews per minute give batch size 112 and a limiter of 25 requests per 60000 ms |
| Admission.QuotaWithinBatchCount | api.js:273-285 | the quota never exceeds 25, 20 or 10 by range, and equals the count up to 20 |
| Schedule.NextScrapped | api.js:330-346 | each iteration advances the scrolled count by the batch, or by what remains, and never past the total |
| Schedule.DividesIsRemainderZero | api.js:353 | the subtraction form of divisibility agrees with `%` |
| Schedule.PassPoints | api.js:352-359 | the positions where the remaining iterations extract. The last one is the total whenever any iteration remains |
| Schedule.PassPointsIncreasing | api.js:352-359 | pass positions lie between the current position and the total, and strictly increase |
| Schedule.PassPointsStep | api.js:346-359 | one iteration contributes a pass exactly when its position is a multiple of the threshold or reaches the total, and the threshold then moves by one batch |
| Schedule.LadderAt | api.js:352-358 | rung `i` of the ladder is `from + i * batch`, capped at the total |
| Schedule.LadderLength | api.js:352-358 | a ladder `m` whole batches long has `m + 1` rungs |
| Schedule.EveryIterationAfterFirstPass | api.js:352-358 | once a pass has run at the threshold, every later iteration extracts |
| Schedule.NoPassBeforeThreshold | api.js:352-358 | no pass runs before the scrolled count reaches the initial threshold |
| Schedule.PassStep | api.js:352-358 | an iteration reaching the threshold or the total extracts |
| Schedule.SkipStep | api.js:352-358 | an iteration short of both the threshold and the total does not extract |
| Schedule.BatchesIsProduct | api.js:358 | repeated batch addition equals multiplication |
| Schedule.PassSchedule | api.js:329-365 | under the handler's plan, passes run at the initial threshold, then after every batch, then at the total |
| Schedule.LadderOfWholeBatches | api.js:352-358 | the rungs are exactly one batch apart |
| Schedule.WholeBatchSchedule | api.js:329-365 | a total a whole number `m` of batches past the threshold gets `m + 1` passes |
| Schedule.FifteenReviewsSchedule | api.js:329-365 | 15 reviews: passes after scrolls 10 to 15 |
| Schedule.SixHundredReviewsSchedule | api.js:329-365 | 600 reviews: 24 passes, at 48 and every 24 reviews after that, the last at 600 |
| Browser.TotalOf | api.js:318 | the loop total is the parsed count, and 0 where `parseInt` gives `NaN` |
| Browser.Page.Scroll | api.js:375-382 | one scroll action is counted, and it fails exactly when the script says so |
| Browser.Page.RenderedCount | api-backup.js:86-89 | the count is the number of reviews rendered now |
| Browser.Page.EvalReviews | api.js:387-465 | one pass is counted. It throws exactly when the script says so, and otherwise maps every rendered review |
| Requests.AcceptedKey | api.js:269-270 | the environment key wins when set and non-empty, otherwise the configured key |
| Requests.ValidateApiKey | api.js:269-270 | exactly one header value passes (its absence counts as a value): the environment key when it is set and non-empty, the configured key otherwise |
| Requests.FirmGiven | api.js:77 | `!firm` rejects exactly the missing field and the empty string |
| Requests.MissingKeyAcceptedWhenNoneConfigured | api.js:269-270 | with no key configured anywhere, a request without a key passes and any given key fails |
| Requests.ErrorResponse | api.js:238-240 | the status and message are the ones given |
| Requests.CheckRequest | api.js:69-79 | a request passes exactly with a valid key and a non-empty firm. Otherwise it gets 401, or 400, in that order |
| Requests.CheckRequestBackup | api-backup.js:243-260 | the same admission rule, with the backup's 401 and 400 bodies |
| Requests.ChecksAgree | api-backup.js:243-260 | both handlers reject the same requests, with the same statuses |
| Api.Step | api.js:330-364 | an iteration that succeeds advances the scrolled count and keeps the loop state valid |
| Api.LoopTotal | api.js:312-318 | the loop's total is 0 without a count element or without digits in it, and otherwise the value `parseInt` reads from the digits |
| Api.PassValue | api.js:352-359 | a pass's object exists exactly when a pass ran |
| Api.PassValueContents | api.js:352-359 | a pass's object is consistent, names the firm, and holds the records of the reviews rendered at that pass's scroll position |
| Api.StepState | api.js:330-364 | a successful iteration scrolls one batch. It moves the pass counter, the threshold and the last pass on exactly when a pass was due. It fails exactly when a scroll of the batch fails or a due pass fails |
| Api.UnfaultedStep | api.js:329-364 | the scrolls and passes still ahead all succeed exactly when the next iteration succeeds and those still ahead of it do |
| Api.RunLoop | api.js:329-365 | every loop failure is "Error scrolling page" |
| Api.ScrollOutcome | api.js:310-372 | every failure, including a missing count element or list, is "Error scrolling page" |
| Api.RunLoopSucceeds | api.js:329-365 | the loop completes exactly when none of the scrolls it makes (one per review still to scroll) and none of the passes still due fails |
| Api.RunLoopState | api.js:329-366 | a completed loop scrolled once per remaining review and ran every due pass. Its last pass ran on the fully scrolled page |
| Api.RunLoopPauses | api.js:334-364 | the loop pauses at most once per 100 reviews, and at least once from 100 reviews on |
| Api.ScrollOutcomeSpec | api.js:302-372 | `scrollPageWithRetry` succeeds exactly when the count and list appear and no scroll or pass fails. It then makes `total` scrolls, runs every scheduled pass and ends on the pass over the fully scrolled page. It pauses at most `total/100` times, and at least once when `total >= 100` |
| Api.GetGoogleReviewsWithTimeoutAndRetry | api.js:385-484 | one pass, no retry: the wrapped records of the rendered reviews, or "Error extracting Google Reviews" |
| Api.ScrollPageWithRetry | api.js:302-372 | the result, the pauses and the page's counters are those of `ScrollOutcome`. A success returns the last pass's object |
| Api.ScrollIteration | api.js:330-364 | one iteration succeeds, and updates the loop variables and the page, exactly as `Step` says |
| Api.PassIfDue | api.js:352-359 | with a pass due (a multiple of the threshold, or the end) it runs one pass, which fails exactly when that pass throws. On success it keeps the pass's object and moves the threshold one batch on. With none due it changes nothing |
| Api.PassCountStep | api.js:352-359 | one iteration consumes one due pass exactly when it extracts |
| Api.ScrollBatch | api.js:334-344 | a batch of `n` scrolls succeeds exactly when none fails. It adds `n` to the pause counter and a pause for each multiple of 100 crossed |
| Api.PauseBounds | api.js:337-343 | a batch adds at most one pause per 100 scrolls, and at least one when the counter reaches 100 |
| Api.ScrapeOutcome | api.js:211-235 | a scrape succeeds exactly when the loop under the handler's plan completes with a positive total. Failures are "Error scraping Google Reviews". A success is a consistent object for the firm |
| Api.ScrapeOutcomeContents | api.js:211-235 | a successful scrape holds, in page order, exactly the records of the extractable reviews rendered after `total` scrolls, and `success` is 1 exactly when there is one |
| Api.NoTotalNoReviews | api.js:221-226 | a zero or unparseable total gives the scrape error, not an empty result |
| Api.ScrapeGoogleReviews | api.js:211-235 | the method yields `ScrapeOutcome` and, on success, has scrolled `total` times |
| Api.RewrapIdentity | api.js:221-227 | rebuilding the object around a pass's reviews gives the same object |
| Api.HandleFreeGoogleReviews | api.js:64-134 | rejected requests get their check response and take no page. Search failure gives 500. Not found gives 404, and the client keeps it. A failed open gives 500. Otherwise the response follows the scrape outcome |
| Api.ScrapedResponse | api.js:97-125 | 200 with the object exactly when the scrape succeeded, the client's copy is stale and compression worked. Otherwise 304 or 500 |
| Api.FirstResponse | api.js:167-171 | once a response was sent, later ones are lost |
| ApiBackup.ScrollRun | api-backup.js:40-98 | scrolling comes in bursts of 5. A successful run found the count element and the list, and ends with at least the parsed total of reviews rendered |
| ApiBackup.Growth | api-backup.js:58-93 | the loop never moves the page's scroll counter backwards. When it completes or fails is stated by `GrowthSucceeds` and `GrowthOutcome` |
| ApiBackup.GrowthOutcome | api-backup.js:58-93 | a run stops after `k` bursts that each start below the total, throw nothing and raise the rendered count. A success has then reached the total. A failure's last burst threw or saw no growth, and it started below the total |
| ApiBackup.GrowthCompletes | api-backup.js:58-93 | if `k` bursts make progress and reach the total, the loop completes after exactly those `k` bursts |
| ApiBackup.GrowthStallsAt | api-backup.js:58-93 | if `k` bursts make progress below the total and the next one throws or sees no growth, the loop fails right after that burst |
| ApiBackup.GrowthSucceeds | api-backup.js:58-93 | the loop completes exactly when some number of unfaulted, growing bursts reaches the total |
| ApiBackup.ScrollRunSucceeds | api-backup.js:40-98 | `scrollPage` completes exactly when the count element and the list appear and some number of unfaulted, growing bursts reaches the parsed total |
| ApiBackup.GrowthBounds | api-backup.js:58-93 | scrolling comes in bursts of 5, at most one burst per missing review. A completed run has seen at least `total` reviews |
| ApiBackup.ScrollBurst | api-backup.js:60-69 | all 5 scroll actions run, and the burst succeeds exactly when none throws |
| ApiBackup.ScrollPage | api-backup.js:40-98 | success and the final scroll counter are those of `ScrollRun`, and no pass is made |
| ApiBackup.Attempt | api-backup.js:108-206 | an attempt yields records exactly when its scroll run completes and its extraction pass does not throw. The records are those of the reviews rendered where scrolling stopped. A pass is counted only after a completed scroll run |
| ApiBackup.Attempts | api-backup.js:107-227 | `n` chained attempts, the first of them from the starting counters |
| ApiBackup.Retry | api-backup.js:101-229 | at most 3 attempts, with exactly one delay between consecutive attempts and none after the last. A failure has made all 3 attempts and carries "Error during Google Reviews extraction" (`RetryFails` shows all 3 failed). The scroll counter never moves backwards |
| ApiBackup.RetryFails | api-backup.js:101-229 | the retry loop fails exactly when every attempt it could still make fails |
| ApiBackup.RetryFirstSuccess | api-backup.js:101-229 | a success returns the first successful attempt's records. Its attempt count is that attempt's number, every earlier attempt failed, and the page is where that attempt left it |
| ApiBackup.RetryFailureState | api-backup.js:101-229 | a failure leaves the page where the third attempt left it |
| ApiBackup.RetryBounds | api-backup.js:101-229 | a success returns the records of the reviews rendered where the successful attempt's scrolling stopped |
| ApiBackup.FirstSuccessKept | api-backup.js:107-206 | a successful first attempt is returned at once, with no delay |
| ApiBackup.TryAttempt | api-backup.js:108-206 | one attempt's records and page counters are `Attempt`'s |
| ApiBackup.GetGoogleReviewsWithTimeoutAndRetry | api-backup.js:101-229 | the result, the delays and the page counters are `Retry`'s |
| ApiBackup.BackupResponse | api-backup.js:309-323 | 200 with the array exactly when extraction and compression succeed, otherwise 500 |
| ApiBackup.Server.CloseBrowser | api-backup.js:324-329 | the `finally` block closes whatever browser the module-level variable holds, and leaves the variable set |
| ApiBackup.Server.HandlePost | api-backup.js:240-330 | the checks come before any launch. Not found answers 200 with the empty list and extracts nothing. Otherwise the response follows extraction and compression. The `finally` block closes the variable's browser, including one launched by an earlier request |
| ApiBackup.Server.HandlePostScoped | api-backup.js:240-330 | the same responses, and a browser is closed exactly when this request launched it |
| ApiBackup.Server.Serve | api-backup.js:269-323 | search, not-found, open, extraction and compression outcomes, each as in the handler |
| ApiBackup.StaleCloseWitness | api-backup.js:324-329 | as written, a valid request followed by one with a wrong key closes browser 0 twice |
| ApiBackup.ScopedCloseWitness | api-backup.js:324-329 | with the browser scoped to the request, the same two requests close browser 0 once |

## Left out
- The "More" link. Clicking it (api.js:416-418, api-backup.js:144-146) changes the page. The model does not treat the click as a change of page state. It is folded into each review node as the presence of the control and the full text read after the click (`Reviews.Description`).

- The browser pool (`generic-pool`, acquire and release) and Puppeteer itself. The page is the `PageScript` oracle. `api.js`'s not-found release and its missing release on errors are not modelled.
- Rate-limit enforcement by `express-rate-limit`. Only the quota arithmetic is modelled.
- The `If-Modified-Since` / `Last-Modified` comparison depends on the wall clock. It enters as the boolean `clientCopyCurrent`.
- gzip is an oracle outcome (`gzipFails`), and the body is modelled before compression.
- `parseFloat` on the rating text is the oracle `FloatParser`. Floating-point values are `real`.
- Text.ParseCount, Browser.TotalOf, Admission.BatchSize: these use unbounded integers. In the source `parseInt` returns a JavaScript Number, which loses precision past 2^53 and becomes `Infinity` for a long enough numeral (then `while (reviewsScrapped < totalReviews)` would not end). `Math.ceil` and the batch arithmetic are doubles too. Real review counts stay far below 2^53.
- Strings are sequences of Dafny `char`, not UTF-16 code units. Lengths and positions of text outside the Basic Multilingual Plane may differ from JavaScript's.
- Concurrency. The 5 scroll actions under `Promise.all` and the async per-review map run sequentially, and requests are handled one at a time.
- Sleeps and timeouts: the 50/100 ms waits, the 100 ms memory pauses, the 5000 ms retry delay, and the `waitForSelector`/`waitForFunction` timeouts. Pauses and delays are counted. A wait that times out is a failure read from the script.
- Api.ScrollPageWithRetry, Api.HandleFreeGoogleReviews: the 90 s and 5 s selector timeouts are not modelled apart from their outcome.
- CSS selectors. One node list, `RenderedAt(k)`, stands for every review selector. In `api-backup.js` the growth loop waits on `.WMbnJf.vY6njf.gws-localreviews__google-review` inside the container (api-backup.js:74-76). It counts that selector page-wide (api-backup.js:86-89), and the pass maps `.gws-localreviews__google-review` (api-backup.js:116). ApiBackup.Growth, ApiBackup.Attempt and Browser.Page.RenderedCount therefore read the same node list the mapper maps. A page where those selectors match different nodes, so the growth count and the mapped list disagree, is not modelled.
- `firm` values that are not strings, and the request body being absent. The firm is an optional string.
- Configuration loading (`require("./config")`), the environment, logging (winston, console), timing output, server start-up, TLS files, `serverLoad.js` and `ecosystem.config.js`.
- The error-handling middleware of `api-backup.js:333-349`. It is only reached by errors thrown outside the handler's own `try`.

## Findings

| source | as written | input that shows it | evidently intended | confidence | as-written member | corrected member |
|---|---|---|---|---|---|---|
| api-backup.js:324-329 | `browser` is module-level and never cleared. `finally` closes it on every request, including requests that returned (401/400) or failed before launching one | a valid request that launches and closes browser 0, then a request with a wrong API key: its `finally` closes browser 0 again. With requests in flight at once, one request would close another's live browser | each request closes exactly the browser it launched | not executed; high | ApiBackup.StaleCloseWitness | ApiBackup.Server.HandlePostScoped |
