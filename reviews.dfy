/** Per-review record extraction: the mapper that turns each rendered review
    node into a record or `null`, the filter that drops the nulls, and the
    object api.js wraps the surviving records in. Both source files run the
    same mapper. */
module Reviews {
  import opened Results
  import opened Text

  /** `parseFloat` on the stripped rating label; `None` stands for `NaN`. */
  type FloatParser = string -> Option<real>

  /** The review's title link: its text and its `href` attribute (`None` when
      the attribute is missing, so `getAttribute` yields `null`). */
  datatype TitleLink = TitleLink(text: string, href: Option<string>)

  /** What the mapper can read from one rendered review node. Each `Option`
      is `None` when the element (or attribute) is not present. */
  datatype ReviewNode = ReviewNode(
    titleLink: Option<TitleLink>,       // the reviewer-name link
    ratingLabels: seq<Option<string>>,  // the aria-label of every star-rating element, in order
    pictureSrc: Option<string>,         // the reviewer picture's src; None without picture or src
    moreButton: bool,                   // whether the "More" control is present
    expandedText: Option<string>,       // the full-text element, read after "More" was clicked
    inlineText: Option<string>,         // the inline expandable span
    dateText: Option<string>)           // the publication-date element

  /** One extracted review, with the field names of the emitted JSON object. */
  datatype Record = Record(
    id: Option<string>,
    title: string,
    description: Option<string>,
    numericRatingCount: real,
    reviewerPictureUrl: Option<string>,
    reviewerUrl: string,
    publicationDate: Option<string>)

  function TrimText(t: Option<string>): Option<string> {
    match t
    case None => None
    case Some(s) => Some(Trim(s))
  }

  /** The conditions under which the mapper returns a record rather than
      throwing inside its own try block: a title link with an `href`, at least
      one rating element, an `aria-label` on the first one, and a rating text
      `parseFloat` does not turn into `NaN`. */
  predicate Extractable(node: ReviewNode, parseFloat: FloatParser)
    // "Missing required element": no title link, or no rating element
    ensures node.titleLink.None? || node.ratingLabels == [] ==> !Extractable(node, parseFloat)
    // a null `aria-label` or `href` makes `.replace` throw
    ensures Extractable(node, parseFloat) ==> node.ratingLabels[0].Some? && node.titleLink.value.href.Some?
    // a `NaN` rating is rejected
    ensures Extractable(node, parseFloat) ==> parseFloat(RatingText(node.ratingLabels[0].value)).Some?
  {
    && node.titleLink.Some?
    && node.titleLink.value.href.Some?
    && |node.ratingLabels| > 0
    && node.ratingLabels[0].Some?
    && parseFloat(RatingText(node.ratingLabels[0].value)).Some?
  }

  /** The description: exactly one of the two shapes is read, chosen by the
      presence of the "More" control. */
  function Description(node: ReviewNode): (d: Option<string>)
    ensures node.moreButton ==> d.Some? == node.expandedText.Some?
    ensures !node.moreButton ==> d.Some? == node.inlineText.Some?
    ensures d.Some? ==> d.value == Trim(if node.moreButton then node.expandedText.value else node.inlineText.value)
  {
    if node.moreButton then TrimText(node.expandedText) else TrimText(node.inlineText)
  }

  /** The async mapper applied to one review node; `None` is the `null` its
      catch block returns. */
  function ExtractReview(node: ReviewNode, parseFloat: FloatParser): (r: Option<Record>)
    ensures r.Some? <==> Extractable(node, parseFloat)
    ensures r.Some? ==> parseFloat(RatingText(node.ratingLabels[0].value)) == Some(r.value.numericRatingCount)
    ensures r.Some? ==> r.value.title == Trim(node.titleLink.value.text)
    ensures r.Some? ==> r.value.description == Description(node)
    ensures r.Some? ==> r.value.reviewerPictureUrl == node.pictureSrc && r.value.publicationDate == TrimText(node.dateText)
    ensures r.Some? ==>
      var path := StripQuery(node.titleLink.value.href.value);
      && r.value.reviewerUrl == path + "/reviews/"
      && (r.value.id.None? <==> path == [])
      && (r.value.id.Some? ==> r.value.id.value == LastSegment(path) && '/' !in r.value.id.value)
  {
    match node.titleLink
    case None => None
    case Some(link) =>
      if |node.ratingLabels| == 0 then None
      else
        match node.ratingLabels[0]
        case None => None            // getAttribute gave null: `.replace` throws
        case Some(ariaLabel) =>
          match parseFloat(RatingText(ariaLabel))
          case None => None          // NaN rating
          case Some(rating) =>
            match link.href
            case None => None        // null href: `.replace` throws
            case Some(href) =>
              var path := StripQuery(href);
              Some(Record(
                id := if path == [] then None else Some(LastSegment(path)),
                title := Trim(link.text),
                description := Description(node),
                numericRatingCount := rating,
                reviewerPictureUrl := node.pictureSrc,
                reviewerUrl := path + "/reviews/",
                publicationDate := TrimText(node.dateText)))
  }

  /** A contributor link `dir/seg?query` yields the reviewer address
      `dir/seg/reviews/` and the identifier `seg`. */
  lemma ReviewerLinkFields(node: ReviewNode, parseFloat: FloatParser, dir: string, seg: string, query: string)
    requires Extractable(node, parseFloat)
    requires node.titleLink.value.href == Some(dir + "/" + seg + "?" + query)
    requires '?' !in dir && '?' !in seg && '/' !in seg && seg != []
    requires NoLineTerminator(query)
    ensures ExtractReview(node, parseFloat).Some?
    ensures ExtractReview(node, parseFloat).value.reviewerUrl == dir + "/" + seg + "/reviews/"
    ensures ExtractReview(node, parseFloat).value.id == Some(seg)
  {
    var path := dir + "/" + seg;
    assert '?' !in path by {
      forall i | 0 <= i < |path| ensures path[i] != '?' {
        if i < |dir| { assert path[i] == dir[i]; }
        else if i > |dir| { assert path[i] == seg[i - |dir| - 1]; }
      }
    }
    StripQueryOfUrl(path, query);
    LastSegmentOfPath(dir, seg);
  }

  /** `reviews.map(mapper)`: one entry per rendered node. */
  function MapReviews(nodes: seq<ReviewNode>, parseFloat: FloatParser): (r: seq<Option<Record>>)
    ensures |r| == |nodes|
  {
    if nodes == [] then [] else [ExtractReview(nodes[0], parseFloat)] + MapReviews(nodes[1..], parseFloat)
  }

  /** The mapper's entries keep page order: entry `i` is the mapper applied
      to node `i`. */
  lemma {:induction false} MapReviewsIndex(nodes: seq<ReviewNode>, parseFloat: FloatParser)
    ensures forall i :: 0 <= i < |nodes| ==> MapReviews(nodes, parseFloat)[i] == ExtractReview(nodes[i], parseFloat)
  {
    if nodes != [] {
      MapReviewsIndex(nodes[1..], parseFloat);
      assert forall i :: 1 <= i < |nodes| ==> nodes[i] == nodes[1..][i - 1];
    }
  }

  lemma {:induction false} MapReviewsAppend(a: seq<ReviewNode>, b: seq<ReviewNode>, parseFloat: FloatParser)
    ensures MapReviews(a + b, parseFloat) == MapReviews(a, parseFloat) + MapReviews(b, parseFloat)
  {
    if a == [] {
      assert a + b == b;
    } else {
      assert (a + b)[0] == a[0];
      assert (a + b)[1..] == a[1..] + b;
      MapReviewsAppend(a[1..], b, parseFloat);
    }
  }

  /** `.filter(review => review !== null)`. */
  function DropNulls(xs: seq<Option<Record>>): (r: seq<Record>)
    ensures |r| <= |xs|
  {
    if xs == [] then []
    else
      var rest := DropNulls(xs[1..]);
      match xs[0]
      case None => rest
      case Some(x) => [x] + rest
  }

  /** The filter keeps every entry exactly when no entry is `null`, and keeps
      none exactly when every entry is. */
  lemma {:induction false} DropNullsCounts(xs: seq<Option<Record>>)
    ensures |DropNulls(xs)| == |xs| <==> forall i :: 0 <= i < |xs| ==> xs[i].Some?
    ensures DropNulls(xs) == [] <==> forall i :: 0 <= i < |xs| ==> xs[i].None?
  {
    if xs != [] {
      DropNullsCounts(xs[1..]);
      assert forall i :: 1 <= i < |xs| ==> xs[i] == xs[1..][i - 1];
    }
  }

  /** Every record the filter keeps is one of its input's entries. */
  lemma {:induction false} DropNullsSound(xs: seq<Option<Record>>, k: nat)
    requires k < |DropNulls(xs)|
    ensures exists i :: 0 <= i < |xs| && xs[i] == Some(DropNulls(xs)[k])
  {
    var rest := DropNulls(xs[1..]);
    if xs[0].Some? && k == 0 {
      assert xs[0] == Some(DropNulls(xs)[k]);
    } else {
      var j := if xs[0].Some? then k - 1 else k;
      assert DropNulls(xs)[k] == rest[j];
      DropNullsSound(xs[1..], j);
      var i :| 0 <= i < |xs[1..]| && xs[1..][i] == Some(rest[j]);
      assert xs[i + 1] == Some(DropNulls(xs)[k]);
    }
  }

  lemma {:induction false} DropNullsAppend(a: seq<Option<Record>>, b: seq<Option<Record>>)
    ensures DropNulls(a + b) == DropNulls(a) + DropNulls(b)
  {
    if a == [] {
      assert a + b == b;
    } else {
      assert (a + b)[1..] == a[1..] + b;
      DropNullsAppend(a[1..], b);
    }
  }

  lemma DropNullsSkip(a: seq<Option<Record>>, b: seq<Option<Record>>)
    ensures DropNulls(a + [None] + b) == DropNulls(a) + DropNulls(b)
  {
    var none: seq<Option<Record>> := [None];
    assert DropNulls(none) == DropNulls(none[1..]) == [];
    DropNullsAppend(a + none, b);
    DropNullsAppend(a, none);
    assert DropNulls(a + none) == DropNulls(a);
  }

  /** One extraction pass over the rendered nodes: map, then drop the nulls. */
  function ExtractAll(nodes: seq<ReviewNode>, parseFloat: FloatParser): (r: seq<Record>)
    ensures |r| <= |nodes|
  {
    DropNulls(MapReviews(nodes, parseFloat))
  }

  /** A pass emits one record per node exactly when every node is
      extractable, and none exactly when no node is. */
  lemma ExtractAllCounts(nodes: seq<ReviewNode>, parseFloat: FloatParser)
    ensures |ExtractAll(nodes, parseFloat)| == |nodes| <==> forall i :: 0 <= i < |nodes| ==> Extractable(nodes[i], parseFloat)
    ensures ExtractAll(nodes, parseFloat) == [] <==> forall i :: 0 <= i < |nodes| ==> !Extractable(nodes[i], parseFloat)
  {
    var mapped := MapReviews(nodes, parseFloat);
    MapReviewsIndex(nodes, parseFloat);
    DropNullsCounts(mapped);
    assert forall i :: 0 <= i < |nodes| ==> (mapped[i].Some? <==> Extractable(nodes[i], parseFloat));
  }

  /** Every emitted record comes from a rendered node whose rating label
      parsed to exactly the record's rating: a review with a missing or
      unparseable rating is never emitted. */
  lemma ExtractAllSound(nodes: seq<ReviewNode>, parseFloat: FloatParser, k: nat)
    requires k < |ExtractAll(nodes, parseFloat)|
    ensures exists i :: 0 <= i < |nodes| && ExtractReview(nodes[i], parseFloat) == Some(ExtractAll(nodes, parseFloat)[k])
    ensures exists i :: 0 <= i < |nodes| && Extractable(nodes[i], parseFloat)
              && parseFloat(RatingText(nodes[i].ratingLabels[0].value)) == Some(ExtractAll(nodes, parseFloat)[k].numericRatingCount)
  {
    var mapped := MapReviews(nodes, parseFloat);
    MapReviewsIndex(nodes, parseFloat);
    DropNullsSound(mapped, k);
    var i :| 0 <= i < |mapped| && mapped[i] == Some(ExtractAll(nodes, parseFloat)[k]);
    assert ExtractReview(nodes[i], parseFloat) == mapped[i];
  }

  /** Records keep page order, and a pass over two runs of nodes is the
      concatenation of the passes over each. */
  lemma ExtractAllAppend(a: seq<ReviewNode>, b: seq<ReviewNode>, parseFloat: FloatParser)
    ensures ExtractAll(a + b, parseFloat) == ExtractAll(a, parseFloat) + ExtractAll(b, parseFloat)
  {
    MapReviewsAppend(a, b, parseFloat);
    DropNullsAppend(MapReviews(a, parseFloat), MapReviews(b, parseFloat));
  }

  /** Fault isolation: a node the mapper cannot turn into a record is dropped
      alone and changes nothing about the records of the other nodes. */
  lemma FaultIsolation(a: seq<ReviewNode>, bad: ReviewNode, b: seq<ReviewNode>, parseFloat: FloatParser)
    requires !Extractable(bad, parseFloat)
    ensures ExtractAll(a + [bad] + b, parseFloat) == ExtractAll(a, parseFloat) + ExtractAll(b, parseFloat)
  {
    var ma, mb := MapReviews(a, parseFloat), MapReviews(b, parseFloat);
    MapReviewsAppend(a + [bad], b, parseFloat);
    MapReviewsAppend(a, [bad], parseFloat);
    assert MapReviews([bad], parseFloat) == [None];
    DropNullsSkip(ma, mb);
  }

  // ---------------------------------------------------------------------
  // The object api.js returns from one extraction pass
  // ---------------------------------------------------------------------

  const ExtractedMessage: string := "Google Reviews Successfully Extracted."

  /** A JSON object `{success, firm_name, message, totalCount, reviews}`;
      `firmName` is `None` when `firm_name` is `undefined` (left out of the
      JSON text). */
  datatype Envelope = Envelope(success: int, firmName: Option<string>, message: string, totalCount: int, reviews: seq<Record>)

  /** The invariant of every such object the scraper builds: `success` is 1
      exactly when there are reviews, else 0, and `totalCount` counts them. */
  predicate Consistent(e: Envelope) {
    && (e.success == 1 <==> e.reviews != [])
    && (e.success == 0 <==> e.reviews == [])
    && e.totalCount == |e.reviews|
  }

  /** The object api.js builds around the filtered records of a pass. */
  function Wrap(firm: string, records: seq<Record>): (e: Envelope)
    ensures Consistent(e)
    ensures e.reviews == records && e.firmName == Some(firm) && e.message == ExtractedMessage
  {
    Envelope(if |records| > 0 then 1 else 0, Some(firm), ExtractedMessage, |records|, records)
  }
}
