# Review analyzer server: request-handling core in Dafny

This project models the request handler of a small WSGI review service,
`ReviewAnalyzerServer.__call__` in `server.py`. The service keeps a list of
customer reviews in memory. Each review has a `ReviewBody`, a `Location` and a
`Timestamp`.

- **GET** reads up to three filters from the query string: `location`,
  `start_date` and `end_date`. It picks the stored reviews by a priority rule:
  both dates, else start date, else end date, else location, else everything.
  It writes a `sentiment` entry into each picked review in place. It answers
  with the picked reviews ordered by compound score, highest first. The sort
  is stable.
- **POST** reads `ReviewBody` and `Location` from the form. It accepts them
  only when both are non-empty and the location is in `ALLOWED_LOCATIONS`.
  It answers `201 OK` with a four-field record, or `400 Bad Request` with `{}`.
- Both answers are JSON with a `Content-Length` header equal to the body's
  byte length.

Modules, leaf first:

- `Wrappers` (`wrappers.dfy`): `Option`.
- `Digits` (`digits.dfy`): decimal numerals. `DecimalString` is Python's
  `str(n)`. `Padded` writes a zero-padded fixed-width field. `Value` reads
  digits back.
- `Reviews` (`reviews.dfy`): dates, timestamps and their `datetime` order.
  Also the `YYYY-MM-DD HH:MM:SS` text of a timestamp, written and read. Also
  the sentiment scores and the stored review record.
- `Forms` (`forms.dfy`): parameters as `parse_qs` returns them. The first
  value of a name counts. An empty value counts as absent.
- `Ranking` (`ranking.dfy`): `sorted(…, reverse=True)` as a stable insertion
  sort into non-increasing key order.
- `QueryFilter` (`query_filter.dfy`): the GET side as functions. It holds the
  parsed query, the selection rule, the store after the loop, the list the
  loop collects, and the ranked answer.
- `Submission` (`submission.dfy`): the allow-list as Python parses it, and
  the POST decision.
- `Server` (`server.dfy`): class `ReviewAnalyzerServer`. It holds the review
  list as an array that GET updates in place. The scorer, the JSON encoder and
  the date parser are injected as functions. Its `Get` method is the filter
  loop. Its `Call` method is the request dispatch.

Representation choices:

- Timestamps are `(year, month, day, hour, minute, second)` compared field by
  field, which is `datetime` order. A query date stands for 00:00:00 of that
  day.
- The analyzer rounds each score to at most four decimals. So a score is held
  exactly as an integer number of ten-thousandths.

Where the code differs from the service's design, the model follows the code:

- `ALLOWED_LOCATIONS` has no commas after "Carlsbad, California", "Chula Vista,
  California", "Colorado Springs, Colorado" and "Denver, Colorado"
  (server.py:25-28). Python joins those five strings into one entry. So none
  of those five cities is accepted on its own, and the list has fifteen
  entries. "Salt Lake City, Utah" appears twice.
- A successful POST does not add the new review to the stored list
  (server.py:124-141). A later GET does not return it (`SubmitThenList`).
- The `sentiment` entry a GET writes stays in the stored record. An
  unselected review keeps the entry from an earlier GET.
- When any date is given, the location filter is ignored.
- An end date means midnight of that day. Reviews later on the end day are
  excluded.

## Model

| member | source | states |
|---|---|---|
| `Digits.DecimalString` | server.py:109 | `str(n)` of a length is a non-empty numeral with no leading zero whose decimal value is `n` |
| `Reviews.NotAfterIsTotalOrder` | server.py:82-90 | the `datetime` comparison the date filters use is reflexive, total, antisymmetric and transitive |
| `Reviews.ParseTimestamp` | server.py:79 | a `Timestamp` column reads as a timestamp only if it has the zero-padded `%Y-%m-%d %H:%M:%S` layout and in-range fields (real month, day of that month, hour, minute, second) |
| `Reviews.FormatTimestampLayout` | server.py:130 | the creation time written by `str(datetime.now().replace(microsecond=0))` has the 19-character `YYYY-MM-DD HH:MM:SS` layout, each field zero-padded |
| `Reviews.FormatThenParse` | server.py:130 | every timestamp the server writes reads back, in the layout of server.py:44, as the same instant |
| `Reviews.ParseThenFormat` | server.py:44 | in the model's fixed-width reading, a readable string is the written text of its instant |
| `Ranking.SortDescPermutes` | server.py:102 | the sorted list holds exactly the elements of the input, with multiplicity |
| `Ranking.SortDescSorted` | server.py:102 | the sorted list is in non-increasing key order |
| `Ranking.SortDescStable` | server.py:102 | for every key, the elements with that key keep their input order (`sorted` with `reverse=True` is stable) |
| `QueryFilter.ParseQuery` | server.py:64-75 | a GET fails exactly when a given `start_date` or `end_date` does not parse; otherwise each filter is the first value of its parameter, empty values count as absent, and dates are parsed |
| `QueryFilter.AnnotatedStoreAt` | server.py:78-100 | after the loop the store has the same length and order; every review keeps its columns; a selected one gains the score of its own body; an unselected one is unchanged |
| `QueryFilter.CollectedMember` | server.py:78-100 | a review is collected iff it is a selected stored review with its score attached |
| `QueryFilter.CollectedIsSelectedStore` | server.py:99-100 | the collected list is the selected part of the updated store, in store order: the same records the loop wrote back |
| `QueryFilter.RankedOrder` | server.py:102 | the answer is in non-increasing compound order, is a permutation of the collected reviews, and keeps store order among equal scores |
| `QueryFilter.RankedMember` | server.py:78-102 | a review is in the answer iff it is a selected stored review annotated with `scorer(ReviewBody)`, so its ranking key is that score's compound |
| `QueryFilter.DateRangeQuery` | server.py:82-84 | with both dates, the answer is the reviews with `start <= Timestamp <= end` (both at midnight), whatever the location |
| `QueryFilter.StartDateQuery` | server.py:85-87 | with only a start date, the answer is the reviews at or after its midnight |
| `QueryFilter.EndDateQuery` | server.py:88-90 | with only an end date, the answer is the reviews at or before its midnight |
| `QueryFilter.EndDayExcludesLaterTimes` | server.py:74-90 | with only an end date, a returned review from that very day is at exactly 00:00:00: later times that day are excluded |
| `QueryFilter.LocationQuery` | server.py:91-93 | with no date, a location returns exactly the reviews whose `Location` equals it |
| `QueryFilter.DatesOverrideLocation` | server.py:81-93 | once any date is given, changing or dropping the location changes nothing in the result |
| `QueryFilter.NoFilterCollectsAll` | server.py:94-95 | with no filter, every stored review is returned, annotated, one for one |
| `Submission.Post` | server.py:120-134 | status is `201 OK` iff `ReviewBody` and `Location` have non-empty first values and the location is an allow-list entry, else `400 Bad Request`; a created record has exactly the keys `ReviewBody`, `Location`, `ReviewId`, `Timestamp` with the submitted values and the generated id; a refused one is `{}` |
| `Submission.CreatedTimestamp` | server.py:130 | a created record's `Timestamp` has the stored-column layout and reads back as the creation time |
| `Submission.JoinedEntriesRejected` | server.py:24-29 | "Carlsbad, California", "Chula Vista, California", "Colorado Springs, Colorado", "Denver, Colorado" and "El Cajon, California" are not allow-list entries |
| `Submission.AllowedLocationsShape` | server.py:24-42 | the allow-list has fifteen entries, and "Salt Lake City, Utah" is two of them |
| `Submission.PhoenixAccepted` | server.py:125-130 | a body from "Phoenix, Arizona" is created with the submitted location and body |
| `Submission.AtlantisRejected` | server.py:124-136 | a location outside the list gets `400 Bad Request` and `{}` |
| `Server.ReviewAnalyzerServer.constructor` | server.py:22 | the server starts from the loaded review rows, in their order |
| `Server.ReviewAnalyzerServer.JsonResponse` | server.py:106-110 | the payload is the encoded body, `Content-Type` is `application/json`, and `Content-Length` reads back as the payload's byte length |
| `Server.ReviewAnalyzerServer.Get` | server.py:77-102 | the loop leaves the store as `AnnotatedStore` of the old store and returns the old store's selected reviews, annotated and ranked |
| `Server.ReviewAnalyzerServer.Call` | server.py:62-141 | GET raises on a bad date without touching the store, else answers `200 OK` with the ranked reviews and annotates the store; POST answers with the validation's status and record and leaves the store unchanged; other methods return nothing and change nothing |
| `Server.SubmitThenList` | server.py:115-141 | after a POST, an unfiltered GET lists exactly as many reviews as were stored before, each a previously stored review annotated: the created review is not added |

## Left out

- Sentiment analysis: the NLTK downloads and the VADER analyzer (server.py:1-3, 13-19, 51-53) are a foreign library with float output. `scorer` is an injected function. The model does not enforce that `compound` lies in -1..1.
- Loading `data/reviews.csv` with pandas (server.py:22) is file I/O. The constructor takes the rows as a parameter. Columns other than `ReviewBody`, `Location` and `Timestamp` are carried as text, unchanged. Pandas' typing of cells is not modelled.
- Stored `Timestamp` columns are held already parsed. So the `ValueError` that line 79 raises on a malformed stored timestamp is not modelled.
- ParseTimestamp: reads only the zero-padded 19-character spelling. `strptime` with the layout of server.py:44 also reads one-digit month, day, hour, minute and second fields, a space-padded day, and any run of whitespace between date and time. Those spellings are not modelled.
- ParseThenFormat: holds for the fixed-width reading only. Under `strptime` one instant has several spellings, for example "2023-1-5 3:4:5" and "2023-01-05 03:04:05".
- Query dates are parsed by the injected `parseDate` (`strptime(…, '%Y-%m-%d')`). `None` stands for its `ValueError`, which the model reports as `Raised`.
- `uuid.uuid4()` and `datetime.now()` (server.py:129-130) are nondeterministic. They are the `reviewId` and `now` parameters. Uniqueness of review ids across submissions is not modelled.
- `json.dumps(…, indent=2).encode("utf-8")` (server.py:103, 133, 136) is a library. It is the injected `encode`. The JSON text itself is not modelled.
- `parse_qs`, reading `CONTENT_LENGTH` bytes of `wsgi.input` and UTF-8 decoding (server.py:64, 117-118) are library and I/O steps. Requests arrive with their parameters already parsed.
- Call: promises a response to every POST. The exceptions of server.py:117-118 are not modelled: `int()` of an empty or missing `CONTENT_LENGTH`, and a body that is not valid UTF-8.
- `start_response` is modelled as the status and headers of the returned `Response` value.
- In Python the result list and the store share the same dict objects. The model copies values. `CollectedIsSelectedStore` states that the copies equal the updated store entries. Nothing mutates either alias later in a call.
- The wsgiref bootstrap and `PORT` (server.py:144-149), the unused `adj_noun_pairs_count` and `stop_words` (server.py:18, 20), and concurrency around the shared list are outside the request logic.
