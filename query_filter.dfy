/**
 * The GET side of the server as functions: reading the query filters, the
 * selection rule, what the filter loop leaves in the store and in its
 * result list, and the ranked answer.
 */
module QueryFilter {
  import opened Wrappers
  import opened Forms
  import opened Reviews
  import opened Ranking

  /**
   * The filters of one GET request with its dates parsed. `location` is
   * present only when the request gave a non-empty one.
   */
  datatype Query = Query(location: Option<string>, start: Option<Date>, end: Option<Date>)

  /** The date parameter `name` is given but its first value is not a `%Y-%m-%d` date. */
  predicate DateRejected(params: Params, name: string, parseDate: string -> Option<Date>) {
    Given(params, name) && parseDate(params[name][0]).None?
  }

  /**
   * Reads `location`, `start_date` and `end_date` from the query string,
   * first value of each, and parses the dates with `parseDate` (the
   * `strptime(…, '%Y-%m-%d')` call). `None` stands for the `ValueError`
   * an unparsable date raises.
   */
  function ParseQuery(params: Params, parseDate: string -> Option<Date>): (q: Option<Query>)
    ensures q.None? <==> DateRejected(params, "start_date", parseDate) || DateRejected(params, "end_date", parseDate)
    ensures q.Some? ==>
      && (q.value.location.Some? <==> Given(params, "location"))
      && (q.value.location.Some? ==> q.value.location.value == params["location"][0])
      && (q.value.start.Some? <==> Given(params, "start_date"))
      && (q.value.start.Some? ==> q.value.start == parseDate(params["start_date"][0]))
      && (q.value.end.Some? <==> Given(params, "end_date"))
      && (q.value.end.Some? ==> q.value.end == parseDate(params["end_date"][0]))
  {
    var location := FirstValue(params, "location");
    var startText := FirstValue(params, "start_date");
    var endText := FirstValue(params, "end_date");
    var start := if Truthy(startText) then parseDate(startText.value) else None;
    var end := if Truthy(endText) then parseDate(endText.value) else None;
    if Truthy(startText) && start.None? then None
    else if Truthy(endText) && end.None? then None
    else Some(Query(if Truthy(location) then location else None, start, end))
  }

  /**
   * The selection rule, one branch in this order of priority: both dates,
   * start date only, end date only, location, no filter. Dates are
   * compared at midnight.
   */
  predicate Selects(q: Query, r: Review) {
    if q.start.Some? && q.end.Some? then
      NotAfter(AtMidnight(q.start.value), r.timestamp) && NotAfter(r.timestamp, AtMidnight(q.end.value))
    else if q.start.Some? then
      NotAfter(AtMidnight(q.start.value), r.timestamp)
    else if q.end.Some? then
      NotAfter(r.timestamp, AtMidnight(q.end.value))
    else if q.location.Some? then
      r.location == q.location.value
    else
      true
  }

  /** `review.update({"sentiment": scorer(review["ReviewBody"])})` */
  function Annotate(r: Review, scorer: string -> Sentiment): Review {
    r.(sentiment := Some(scorer(r.body)))
  }

  /** What the filter loop leaves in one stored review. */
  function Touch(q: Query, r: Review, scorer: string -> Sentiment): Review {
    if Selects(q, r) then Annotate(r, scorer) else r
  }

  /** The store after the filter loop has run over all of it. */
  function AnnotatedStore(q: Query, s: seq<Review>, scorer: string -> Sentiment): (r: seq<Review>)
    ensures |r| == |s|
  {
    if s == [] then []
    else AnnotatedStore(q, s[..|s| - 1], scorer) + [Touch(q, s[|s| - 1], scorer)]
  }

  /** The reviews of `s` that the query selects, in store order. */
  function Selected(q: Query, s: seq<Review>): seq<Review> {
    if s == [] then []
    else Selected(q, s[..|s| - 1]) + (if Selects(q, s[|s| - 1]) then [s[|s| - 1]] else [])
  }

  /** `reviews_with_sentiments` after the loop: each selected review, annotated, in store order. */
  function Collected(q: Query, s: seq<Review>, scorer: string -> Sentiment): seq<Review> {
    if s == [] then []
    else
      Collected(q, s[..|s| - 1], scorer)
      + (if Selects(q, s[|s| - 1]) then [Annotate(s[|s| - 1], scorer)] else [])
  }

  /** The body of a GET answer: the collected reviews ranked by compound score, highest first. */
  function Ranked(q: Query, s: seq<Review>, scorer: string -> Sentiment): seq<Review> {
    SortDesc(Collected(q, s, scorer), Compound)
  }

  lemma {:induction false} AnnotatedStoreIsTouched(q: Query, s: seq<Review>, scorer: string -> Sentiment)
    ensures forall j :: 0 <= j < |s| ==> AnnotatedStore(q, s, scorer)[j] == Touch(q, s[j], scorer)
  {
    if s != [] {
      AnnotatedStoreIsTouched(q, s[..|s| - 1], scorer);
    }
  }

  /** One more turn of the filter loop appends at most the annotated review it visits. */
  lemma CollectedStep(q: Query, s: seq<Review>, scorer: string -> Sentiment, i: int)
    requires 0 <= i < |s|
    ensures Collected(q, s[..i + 1], scorer)
      == Collected(q, s[..i], scorer) + (if Selects(q, s[i]) then [Annotate(s[i], scorer)] else [])
  {
    assert s[..i + 1][..i] == s[..i];
  }

  /**
   * The filter loop keeps the store's length and order: every review keeps
   * its columns, a selected one gains the score of its body, any other is
   * left exactly as it was.
   */
  lemma {:induction false} AnnotatedStoreAt(q: Query, s: seq<Review>, scorer: string -> Sentiment, j: int)
    requires 0 <= j < |s|
    ensures AnnotatedStore(q, s, scorer)[j].(sentiment := s[j].sentiment) == s[j]
    ensures Selects(q, s[j]) ==> AnnotatedStore(q, s, scorer)[j].sentiment == Some(scorer(s[j].body))
    ensures !Selects(q, s[j]) ==> AnnotatedStore(q, s, scorer)[j] == s[j]
  {
    AnnotatedStoreIsTouched(q, s, scorer);
  }

  /** A review is returned iff some stored review is selected and it is that review annotated. */
  lemma {:induction false} CollectedMember(q: Query, s: seq<Review>, scorer: string -> Sentiment, x: Review)
    ensures x in Collected(q, s, scorer) <==>
      exists j :: 0 <= j < |s| && Selects(q, s[j]) && x == Annotate(s[j], scorer)
  {
    if s != [] {
      var p := s[..|s| - 1];
      CollectedMember(q, p, scorer, x);
      if x in Collected(q, s, scorer) && x in Collected(q, p, scorer) {
        var j :| 0 <= j < |p| && Selects(q, p[j]) && x == Annotate(p[j], scorer);
        assert s[j] == p[j];
      }
      if exists j :: 0 <= j < |s| && Selects(q, s[j]) && x == Annotate(s[j], scorer) {
        var j :| 0 <= j < |s| && Selects(q, s[j]) && x == Annotate(s[j], scorer);
        if j < |p| {
          assert p[j] == s[j];
        }
      }
    }
  }

  /**
   * The result list holds the very entries the loop wrote back into the
   * store: it is the selected part of the annotated store, in store order.
   */
  lemma {:induction false} CollectedIsSelectedStore(q: Query, s: seq<Review>, scorer: string -> Sentiment)
    ensures Collected(q, s, scorer) == Selected(q, AnnotatedStore(q, s, scorer))
  {
    if s != [] {
      var p := s[..|s| - 1];
      var a := AnnotatedStore(q, s, scorer);
      CollectedIsSelectedStore(q, p, scorer);
      assert a[..|a| - 1] == AnnotatedStore(q, p, scorer);
      assert a[|a| - 1] == Touch(q, s[|s| - 1], scorer);
    }
  }

  /** The answer is ordered by compound score, holds exactly the collected reviews, and is stable. */
  lemma RankedOrder(q: Query, s: seq<Review>, scorer: string -> Sentiment)
    ensures SortedDesc(Ranked(q, s, scorer), Compound)
    ensures multiset(Ranked(q, s, scorer)) == multiset(Collected(q, s, scorer))
    ensures forall k :: WithKey(Ranked(q, s, scorer), Compound, k) == WithKey(Collected(q, s, scorer), Compound, k)
  {
    SortDescSorted(Collected(q, s, scorer), Compound);
    SortDescPermutes(Collected(q, s, scorer), Compound);
    forall k {
      SortDescStable(Collected(q, s, scorer), Compound, k);
    }
  }

  /** A review is in the answer iff it is a selected stored review carrying the score of its body. */
  lemma RankedMember(q: Query, s: seq<Review>, scorer: string -> Sentiment, x: Review)
    ensures x in Ranked(q, s, scorer) <==>
      exists j :: 0 <= j < |s| && Selects(q, s[j]) && x == Annotate(s[j], scorer)
    ensures x in Ranked(q, s, scorer) ==> x.sentiment == Some(scorer(x.body)) && Compound(x) == scorer(x.body).compound
  {
    RankedOrder(q, s, scorer);
    assert x in Ranked(q, s, scorer) <==> x in multiset(Ranked(q, s, scorer));
    CollectedMember(q, s, scorer, x);
  }

  /** With both dates, the answer is the reviews inside the inclusive window, whatever the location. */
  lemma DateRangeQuery(q: Query, s: seq<Review>, scorer: string -> Sentiment, x: Review)
    requires q.start.Some? && q.end.Some?
    ensures x in Ranked(q, s, scorer) <==>
      exists j :: 0 <= j < |s| && x == Annotate(s[j], scorer)
        && NotAfter(AtMidnight(q.start.value), s[j].timestamp)
        && NotAfter(s[j].timestamp, AtMidnight(q.end.value))
  {
    RankedMember(q, s, scorer, x);
  }

  /** With only a start date, the answer is the reviews at or after its midnight. */
  lemma StartDateQuery(q: Query, s: seq<Review>, scorer: string -> Sentiment, x: Review)
    requires q.start.Some? && q.end.None?
    ensures x in Ranked(q, s, scorer) <==>
      exists j :: 0 <= j < |s| && x == Annotate(s[j], scorer)
        && NotAfter(AtMidnight(q.start.value), s[j].timestamp)
  {
    RankedMember(q, s, scorer, x);
  }

  /** With only an end date, the answer is the reviews at or before its midnight. */
  lemma EndDateQuery(q: Query, s: seq<Review>, scorer: string -> Sentiment, x: Review)
    requires q.start.None? && q.end.Some?
    ensures x in Ranked(q, s, scorer) <==>
      exists j :: 0 <= j < |s| && x == Annotate(s[j], scorer)
        && NotAfter(s[j].timestamp, AtMidnight(q.end.value))
  {
    RankedMember(q, s, scorer, x);
  }

  /** An end date keeps nothing from later in its own day: only a review at exactly 00:00:00 of it. */
  lemma EndDayExcludesLaterTimes(q: Query, s: seq<Review>, scorer: string -> Sentiment, x: Review)
    requires q.start.None? && q.end.Some?
    requires x in Ranked(q, s, scorer) && x.timestamp.date == q.end.value
    requires 0 <= x.timestamp.hour && 0 <= x.timestamp.minute && 0 <= x.timestamp.second
    ensures x.timestamp == AtMidnight(q.end.value)
  {
    RankedMember(q, s, scorer, x);
  }

  /** With no date, a location keeps exactly the reviews whose `Location` equals it. */
  lemma LocationQuery(q: Query, s: seq<Review>, scorer: string -> Sentiment, x: Review)
    requires q.start.None? && q.end.None? && q.location.Some?
    ensures x in Ranked(q, s, scorer) <==>
      exists j :: 0 <= j < |s| && x == Annotate(s[j], scorer) && s[j].location == q.location.value
  {
    RankedMember(q, s, scorer, x);
  }

  /** Once a date is given, the location filter plays no part in what is collected. */
  lemma {:induction false} DatesOverrideLocation(q: Query, location: Option<string>, s: seq<Review>, scorer: string -> Sentiment)
    requires q.start.Some? || q.end.Some?
    ensures Collected(q.(location := location), s, scorer) == Collected(q, s, scorer)
  {
    if s != [] {
      DatesOverrideLocation(q, location, s[..|s| - 1], scorer);
    }
  }

  /** Without any filter every stored review is collected, annotated, in store order. */
  lemma {:induction false} NoFilterCollectsAll(s: seq<Review>, scorer: string -> Sentiment)
    ensures |Collected(Query(None, None, None), s, scorer)| == |s|
    ensures forall j :: 0 <= j < |s| ==> Collected(Query(None, None, None), s, scorer)[j] == Annotate(s[j], scorer)
  {
    if s != [] {
      NoFilterCollectsAll(s[..|s| - 1], scorer);
    }
  }
}
