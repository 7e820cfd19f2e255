/**
 * The POST side of the server: the location allow-list and the decision
 * that turns a submitted form into a status and a review record.
 */
module Submission {
  import opened Wrappers
  import opened Forms
  import opened Reviews

  /**
   * `ALLOWED_LOCATIONS` as Python reads the literal: the five strings from
   * Carlsbad to El Cajon have no commas between them, so they form one
   * entry, their concatenation; Salt Lake City appears twice.
   */
  const AllowedLocations: seq<string> := [
    "Albuquerque, New Mexico",
    "Carlsbad, California" + "Chula Vista, California" + "Colorado Springs, Colorado"
      + "Denver, Colorado" + "El Cajon, California",
    "El Paso, Texas",
    "Escondido, California",
    "Fresno, California",
    "La Mesa, California",
    "Las Vegas, Nevada",
    "Los Angeles, California",
    "Oceanside, California",
    "Phoenix, Arizona",
    "Sacramento, California",
    "Salt Lake City, Utah",
    "Salt Lake City, Utah",
    "San Diego, California",
    "Tucson, Arizona"
  ]

  const Created: string := "201 OK"
  const BadRequest: string := "400 Bad Request"

  /** The status line and the JSON object a POST answers with. */
  datatype PostResult = PostResult(status: string, record: map<string, string>)

  /**
   * Validates a submitted form: `ReviewBody` and `Location` given (first
   * value, non-empty) and the location in the allow-list. A valid form
   * yields the record with the generated `reviewId` and the creation time
   * `now`; anything else yields the empty object.
   */
  function Post(form: Params, reviewId: string, now: Timestamp): (r: PostResult)
    requires ValidTimestamp(now)
    ensures r.status == Created <==>
      Given(form, "ReviewBody") && Given(form, "Location") && form["Location"][0] in AllowedLocations
    ensures r.status == Created || r.status == BadRequest
    ensures r.status == Created ==>
      && r.record.Keys == {"ReviewBody", "Location", "ReviewId", "Timestamp"}
      && r.record["ReviewBody"] == form["ReviewBody"][0]
      && r.record["Location"] == form["Location"][0]
      && r.record["ReviewId"] == reviewId
    ensures r.status == BadRequest ==> r.record == map[]
  {
    var location := FirstValue(form, "Location");
    var body := FirstValue(form, "ReviewBody");
    if Truthy(body) && Truthy(location) && location.value in AllowedLocations then
      PostResult(Created, map[
        "ReviewBody" := body.value,
        "Location" := location.value,
        "ReviewId" := reviewId,
        "Timestamp" := FormatTimestamp(now)])
    else
      PostResult(BadRequest, map[])
  }

  /** The `Timestamp` of a created record is the creation time in the layout the store's column uses. */
  lemma CreatedTimestamp(form: Params, reviewId: string, now: Timestamp)
    requires ValidTimestamp(now)
    requires Post(form, reviewId, now).status == Created
    ensures HasTimestampLayout(Post(form, reviewId, now).record["Timestamp"])
    ensures ParseTimestamp(Post(form, reviewId, now).record["Timestamp"]) == Some(now)
  {
    FormatTimestampLayout(now);
    FormatThenParse(now);
  }

  /** The five concatenated entries are not accepted on their own. */
  lemma JoinedEntriesRejected()
    ensures "Carlsbad, California" !in AllowedLocations
    ensures "Chula Vista, California" !in AllowedLocations
    ensures "Colorado Springs, Colorado" !in AllowedLocations
    ensures "Denver, Colorado" !in AllowedLocations
    ensures "El Cajon, California" !in AllowedLocations
  {
    // Entries of equal length differ in their first character.
    forall i | 0 <= i < |AllowedLocations|
      ensures AllowedLocations[i] != "Carlsbad, California"
      ensures AllowedLocations[i] != "Chula Vista, California"
      ensures AllowedLocations[i] != "Colorado Springs, Colorado"
      ensures AllowedLocations[i] != "Denver, Colorado"
      ensures AllowedLocations[i] != "El Cajon, California"
    {
      var e := AllowedLocations[i];
      assert |e| == 20 ==> e[0] == 'S';
      assert |e| == 23 ==> e[0] != 'C';
      assert |e| == 16 ==> e[0] == 'P';
    }
  }

  /** The list has fifteen entries, the two Salt Lake City ones equal. */
  lemma AllowedLocationsShape()
    ensures |AllowedLocations| == 15
    ensures AllowedLocations[11] == AllowedLocations[12] == "Salt Lake City, Utah"
  {
  }

  /** A submission from an allowed city with a body is created with the submitted values. */
  lemma PhoenixAccepted(reviewId: string, now: Timestamp)
    requires ValidTimestamp(now)
    ensures var r := Post(map["Location" := ["Phoenix, Arizona"], "ReviewBody" := ["Great service!"]], reviewId, now);
      r.status == Created && r.record["Location"] == "Phoenix, Arizona" && r.record["ReviewBody"] == "Great service!"
  {
    assert "Phoenix, Arizona" == AllowedLocations[9];
  }

  /** A submission from a place outside the list is refused with the empty object. */
  lemma AtlantisRejected(reviewId: string, now: Timestamp)
    requires ValidTimestamp(now)
    ensures Post(map["Location" := ["Atlantis"], "ReviewBody" := ["Nice"]], reviewId, now) == PostResult(BadRequest, map[])
  {
  }
}
