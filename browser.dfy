/** The browser page both handlers drive, reduced to what the scraper reads
    from it and the actions that change it. Everything the page shows is fixed
    in advance by a script indexed by how many scroll actions and extraction
    passes have already run, so the model never depends on timing. */
module Browser {
  import opened Results
  import opened Text
  import opened Reviews

  /** What the page will do.
      - `searchOk`: a page can be opened and set up, the Google home page
        loads, the search box appears and the firm name can be typed and
        submitted (a `newPage` that throws makes it false).
      - `linkFound`: the business panel's reviews link becomes visible.
      - `openOk`: clicking that link and waiting for the navigation succeed.
      - `countText`: the text of the total-reviews element, `None` when the
        element never appears (its wait times out).
      - `listShown`: whether the review list container appears.
      - `rendered(k)`: the review nodes on the page after `k` scroll actions
        (read through `RenderedAt`).
      - `scrollFails`: the indices of the scroll actions that throw.
      - `passFails`: the indices of the extraction passes that throw. */
  datatype PageScript = PageScript(
    searchOk: bool,
    linkFound: bool,
    openOk: bool,
    countText: Option<string>,
    listShown: bool,
    rendered: nat -> seq<ReviewNode>,
    scrollFails: set<nat>,
    passFails: set<nat>)
  {
    /** The review nodes on the page after `k` scroll actions. */
    function RenderedAt(k: nat): seq<ReviewNode> {
      rendered(k)
    }
  }

  /** `parseInt(text.replace(/\D/g, ""))` on the count element, as the loop
      condition uses it: `NaN` never exceeds a counter, so it acts as 0. */
  function TotalOf(countText: string): (t: nat)
    ensures NoDigits(countText) ==> t == 0
    ensures !NoDigits(countText) ==> ParseCount(countText) == Some(t)
  {
    match ParseCount(countText)
    case None => 0
    case Some(n) => n
  }

  /** A page: its script, and how many scroll actions and extraction passes
      it has seen. */
  class Page {
    const script: PageScript
    var scrolls: nat
    var passes: nat

    constructor (script: PageScript)
      ensures this.script == script && scrolls == 0 && passes == 0
    {
      this.script := script;
      scrolls := 0;
      passes := 0;
    }

    /** The review nodes currently rendered. */
    function Rendered(): seq<ReviewNode>
      reads this
    {
      script.RenderedAt(scrolls)
    }

    /** One `scrollTo(0, scrollHeight)` on the review list; `ok` is false when
        the evaluation throws. */
    method Scroll() returns (ok: bool)
      modifies this
      ensures ok == (old(scrolls) !in script.scrollFails)
      ensures scrolls == old(scrolls) + 1 && passes == old(passes)
    {
      ok := scrolls !in script.scrollFails;
      scrolls := scrolls + 1;
    }

    /** `page.$$eval(selector, els => els.length)`: the rendered review count. */
    method RenderedCount() returns (n: nat)
      ensures n == |Rendered()|
    {
      n := |script.RenderedAt(scrolls)|;
    }

    /** `page.$$eval` running the per-review mapper over every rendered
        review; `None` when the evaluation itself throws. */
    method EvalReviews(parseFloat: FloatParser) returns (mapped: Option<seq<Option<Record>>>)
      modifies this
      ensures scrolls == old(scrolls) && passes == old(passes) + 1
      ensures mapped == if old(passes) in script.passFails then None else Some(MapReviews(Rendered(), parseFloat))
    {
      if passes in script.passFails {
        mapped := None;
      } else {
        mapped := Some(MapReviews(script.RenderedAt(scrolls), parseFloat));
      }
      passes := passes + 1;
    }
  }
}
