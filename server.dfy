/**
 * `ReviewAnalyzerServer.__call__`: dispatch on the request method, the GET
 * loop that filters the stored reviews and writes their sentiment into
 * them, and the JSON response with its `Content-Length`.
 */
module Server {
  import opened Wrappers
  import opened Digits
  import opened Forms
  import opened Reviews
  import opened Ranking
  import opened QueryFilter
  import opened Submission

  newtype byte = x: int | 0 <= x < 256

  /** What a response serializes: the ranked reviews of a GET or the object of a POST. */
  datatype Body = ReviewList(items: seq<Review>) | Object(fields: map<string, string>)

  datatype Response = Response(status: string, headers: seq<(string, string)>, body: Body, payload: seq<byte>)

  /**
   * One WSGI call: `REQUEST_METHOD`, the parsed query string and the parsed
   * form body.
   */
  datatype Request = Request(verb: string, query: Params, form: Params)

  /**
   * How a call ends: with a response, with the exception an unparsable
   * query date raises, or returning `None` for a method other than GET and POST.
   */
  datatype Outcome = Responded(response: Response) | Raised | NoResponse

  /** The value of the first header called `name`. */
  function Header(headers: seq<(string, string)>, name: string): Option<string> {
    if headers == [] then None
    else if headers[0].0 == name then Some(headers[0].1)
    else Header(headers[1..], name)
  }

  /** The body length a response declares: its `Content-Length` read as a decimal number. */
  function ContentLength(r: Response): Option<nat> {
    match Header(r.headers, "Content-Length")
    case Some(v) => if v != [] && AllDigits(v) then Some(Value(v)) else None
    case None => None
  }

  const Ok: string := "200 OK"

  class ReviewAnalyzerServer {
    /** The module-level `reviews` list loaded at start-up; GET writes into its entries. */
    const reviews: array<Review>
    /** The sentiment analyzer's `polarity_scores`. */
    const scorer: string -> Sentiment
    /** `json.dumps(…, indent=2).encode("utf-8")` */
    const encode: Body -> seq<byte>
    /** `datetime.strptime(…, '%Y-%m-%d')`, `None` where it raises. */
    const parseDate: string -> Option<Date>

    constructor (store: seq<Review>, scorer: string -> Sentiment, encode: Body -> seq<byte>,
                 parseDate: string -> Option<Date>)
      ensures fresh(reviews) && reviews[..] == store
      ensures this.scorer == scorer && this.encode == encode && this.parseDate == parseDate
    {
      reviews := new Review[|store|](i requires 0 <= i < |store| => store[i]);
      this.scorer := scorer;
      this.encode := encode;
      this.parseDate := parseDate;
    }

    /** The response `start_response` and the return value give: JSON, with its exact length declared. */
    function JsonResponse(status: string, body: Body): (r: Response)
      ensures r.status == status && r.body == body && r.payload == encode(body)
      ensures Header(r.headers, "Content-Type") == Some("application/json")
      ensures ContentLength(r) == Some(|r.payload|)
    {
      var payload := encode(body);
      var headers := [("Content-Type", "application/json"), ("Content-Length", DecimalString(|payload|))];
      assert headers[0].0 != "Content-Length";
      assert Header(headers[1..], "Content-Length") == Some(DecimalString(|payload|));
      Response(status, headers, body, payload)
    }

    /**
     * The GET loop: walks the stored reviews in order, decides with the
     * `add_review` flag whether the query selects each, writes the score
     * into each selected one in place and collects it, then ranks the
     * collected reviews.
     */
    method Get(q: Query) returns (ranked: seq<Review>)
      modifies reviews
      ensures reviews[..] == AnnotatedStore(q, old(reviews[..]), scorer)
      ensures ranked == Ranked(q, old(reviews[..]), scorer)
    {
      ghost var store := reviews[..];
      var withSentiments: seq<Review> := [];
      var i := 0;
      while i < reviews.Length
        invariant 0 <= i <= reviews.Length
        invariant forall j :: 0 <= j < i ==> reviews[j] == Touch(q, store[j], scorer)
        invariant forall j :: i <= j < reviews.Length ==> reviews[j] == store[j]
        invariant withSentiments == Collected(q, store[..i], scorer)
      {
        var review := reviews[i];
        assert review == store[i];
        var addReview := false;
        if q.start.Some? && q.end.Some? {
          if NotAfter(AtMidnight(q.start.value), review.timestamp) && NotAfter(review.timestamp, AtMidnight(q.end.value)) {
            addReview := true;
          }
        } else if q.start.Some? {
          if NotAfter(AtMidnight(q.start.value), review.timestamp) {
            addReview := true;
          }
        } else if q.end.Some? {
          if NotAfter(review.timestamp, AtMidnight(q.end.value)) {
            addReview := true;
          }
        } else if q.location.Some? {
          if review.location == q.location.value {
            addReview := true;
          }
        } else {
          addReview := true;
        }
        assert addReview == Selects(q, review);
        if addReview {
          review := review.(sentiment := Some(scorer(review.body)));
          reviews[i] := review;
          withSentiments := withSentiments + [review];
        }
        CollectedStep(q, store, scorer, i);
        i := i + 1;
      }
      assert store[..reviews.Length] == store;
      AnnotatedStoreIsTouched(q, store, scorer);
      ranked := SortDesc(withSentiments, Compound);
    }

    /**
     * `__call__`: a GET answers `200 OK` with the ranked reviews, or raises
     * on an unparsable date; a POST answers with the validation's status
     * and object and leaves the store as it was; any other method returns
     * nothing. `reviewId` and `now` stand for `uuid4()` and `datetime.now()`.
     */
    method Call(request: Request, reviewId: string, now: Timestamp) returns (outcome: Outcome)
      requires ValidTimestamp(now)
      modifies reviews
      ensures request.verb == "GET" ==>
        match ParseQuery(request.query, parseDate)
        case None => outcome == Raised && reviews[..] == old(reviews[..])
        case Some(q) =>
          && reviews[..] == AnnotatedStore(q, old(reviews[..]), scorer)
          && outcome == Responded(JsonResponse(Ok, ReviewList(Ranked(q, old(reviews[..]), scorer))))
      ensures request.verb == "POST" ==>
        && reviews[..] == old(reviews[..])
        && outcome == Responded(JsonResponse(Post(request.form, reviewId, now).status,
                                             Object(Post(request.form, reviewId, now).record)))
      ensures request.verb != "GET" && request.verb != "POST" ==>
        outcome == NoResponse && reviews[..] == old(reviews[..])
    {
      if request.verb == "GET" {
        var query := ParseQuery(request.query, parseDate);
        if query.None? {
          return Raised;
        }
        var ranked := Get(query.value);
        return Responded(JsonResponse(Ok, ReviewList(ranked)));
      }
      if request.verb == "POST" {
        var result := Post(request.form, reviewId, now);
        return Responded(JsonResponse(result.status, Object(result.record)));
      }
      return NoResponse;
    }
  }

  /**
   * A POST followed by an unfiltered GET: the GET lists one entry per
   * stored review and each is a stored review annotated, since the POST
   * does not add the created review to the store.
   */
  method SubmitThenList(server: ReviewAnalyzerServer, form: Params, reviewId: string, now: Timestamp)
    returns (created: Outcome, listed: Outcome)
    requires ValidTimestamp(now)
    modifies server.reviews
    ensures created.Responded?
    ensures server.reviews[..] == AnnotatedStore(Query(None, None, None), old(server.reviews[..]), server.scorer)
    ensures listed.Responded? && listed.response.body.ReviewList?
    ensures |listed.response.body.items| == server.reviews.Length
    ensures forall x :: x in listed.response.body.items ==>
      exists j :: 0 <= j < server.reviews.Length && x == Annotate(old(server.reviews[j]), server.scorer)
  {
    ghost var store := server.reviews[..];
    created := server.Call(Request("POST", map[], form), reviewId, now);
    assert server.reviews[..] == store;
    var unfiltered := Query(None, None, None);
    assert ParseQuery(map[], server.parseDate) == Some(unfiltered);
    listed := server.Call(Request("GET", map[], map[]), reviewId, now);
    NoFilterCollectsAll(store, server.scorer);
    RankedOrder(unfiltered, store, server.scorer);
    assert |Ranked(unfiltered, store, server.scorer)| == |store| by {
      assert |multiset(Ranked(unfiltered, store, server.scorer))| == |multiset(Collected(unfiltered, store, server.scorer))|;
    }
    forall x | x in listed.response.body.items
      ensures exists j :: 0 <= j < |store| && x == Annotate(store[j], server.scorer)
    {
      RankedMember(unfiltered, store, server.scorer, x);
    }
  }
}
