# Mood-tracking journal: a Dafny model

The system behind this model is a small web service. A user posts a free-text
journal entry. The service classifies the text into one of seven moods
(Normal, Depression, Suicidal, Anxiety, Bipolar, Stress, Personality disorder),
or "Unknown" when the classifier's class index is not in the table. It then
merges the entry into the user's journal document, where entries are grouped
into one bucket per UTC date. Finally it records the result as the user's
`current_mode`.

The model has four modules:

- `Options` (`options.dfy`): the `Option` datatype used for absent fields and failed searches.
- `Labels` (`labels.dfy`): the class-index table, the lookup with its "Unknown"
  fallback, and the table's inverse, which is used to state round trips.
- `Journal` (`journal.dfy`): entries, date buckets and the journal collection
  (`map<email, seq<Bucket>>`). It holds the three-way merge (create the document,
  push into today's bucket, or push a new bucket) and its invariant: at most one
  bucket per date. Two abstractions describe what the merge does. `EntriesOn`
  views a document as a map from date to entries. `AllEntries` is the multiset
  of all its entries.
- `Ingest` (`ingest.dfy`): the request handler as a pure function
  `ModeTrack(state, body, classify, entryId, today)`. It returns an outcome
  (`BadRequestEmpty | BadRequestFields | NotFound | Ok(prediction, content)`)
  and the next state (users and journals collections).
- `Scenarios` (`scenarios.dfy`): requests handled in sequence (`Run`); a first
  submission, two on one date, two on different dates; and the concrete
  "a@x.com / I feel fine" example.

The model takes four things as parameters:

- the embedding and decision model, as `classify: string -> int`;
- the generated entry id (a uuid4 string in the service);
- the UTC date key (`%d-%m-%Y` in the service), as an opaque string;
- the parsed request body, as `Option<map<string, Json>>`. `Some(m)` is a JSON
  object. `None` stands for a JSON body that is falsy without being an object:
  `null`, `false`, `0`, `""` or `[]`.

Python truthiness is written out explicitly. `not data` (main.py:63) is true
for every `None` body and for the empty object `{}`. All of these get the
"You didn't write anything!" response (main.py:64). `not email` and
`not sentence` (main.py:71) are true for a missing field, JSON null or the
empty string.

Two points about the code that the model follows:

- The message at main.py:72 names `title` as required, but the test on
  main.py:71 looks only at email and sentence. A request without a title is
  accepted, and its entry stores a null title (`TitleIsOptional`).
- The `journal` field of a document is an array of `{date, entries}` buckets.
  A new date's bucket goes at the end of the array (main.py:111-113). For an
  existing date, the scan at main.py:97 takes the first bucket with that date,
  and the positional `$` update at main.py:101-103 pushes into the first array
  element that matches. `FindBucket` models both. While each date has one
  bucket, that first match is the only match.

## Model

| member | source | states |
|---|---|---|
| Labels.ResolveLabel | main.py:36-44 | every integer index resolves: 0..6 give Normal, Depression, Suicidal, Anxiety, Bipolar, Stress, Personality disorder in that order; the result is "Unknown" exactly when the index is outside 0..6, and is always a mood or "Unknown" |
| Labels.Predict | main.py:53-57 | the prediction for a sentence is always a mood or "Unknown"; it is "Unknown" exactly when the classifier's index is outside the table, and otherwise it is the table entry for that index |
| Labels.LabelIndex | main.py:36-44 | inverse of the table: a label has an index exactly when it is one of the seven moods, and resolving that index gives the label back |
| Labels.TableIsInjective | main.py:36-44 | no two class indices share a mood name, and "Unknown" is not a mood, so the fallback can never be confused with a real class |
| Labels.ResolveThenIndex | main.py:56 | round trip index -> label -> index is the identity on 0..6 |
| Labels.UnknownHasNoIndex | main.py:56 | the fallback "Unknown" has no class index in the table |
| Journal.FindBucket | main.py:97-103 | returns the position of the first bucket dated today (no earlier bucket has that date), and returns nothing exactly when no bucket has that date |
| Journal.AddToBuckets | main.py:95-114 | with a bucket for the date: same number of buckets, same dates in the same order, every other bucket unchanged, and the entry appended at the end of that bucket's entries; without one: all existing buckets kept as a prefix and one new bucket `{date, [entry]}` at the end |
| Journal.Append | main.py:93-126 | the collection gains the user's key and no other; every other user's document is unchanged; a user with no document gets exactly one bucket, for the date, holding exactly the entry |
| Journal.AddPreservesUniqueDates | main.py:97-114 | if a document has at most one bucket per date before the merge, it still does afterwards, and it then has a bucket for the date |
| Journal.AddRefinesDateView | main.py:97-114 | viewed as date -> entries, the merge appends the entry to the date's entries and leaves every other date's entries unchanged |
| Journal.AddAddsExactlyOne | main.py:97-114 | the multiset of all entries in the document grows by exactly the new entry; nothing is lost or duplicated |
| Journal.AppendSpec | main.py:93-126 | over the whole collection, the merge keeps one bucket per date in every document; the user's document gains exactly the entry, at the end of today's entries; the user's other dates and every other user's entries are unchanged |
| Ingest.RequiredText | main.py:67-71 | Python truthiness of `data.get(key)`: the field counts as absent exactly when it is missing, JSON null or the empty string; otherwise it is the non-empty string that was sent |
| Ingest.OptionalText | main.py:68 | `data.get("title")`: the stored title is null exactly when the field is missing or JSON null; otherwise it is the string sent, the empty string included |
| Ingest.ModeTrack | main.py:62-138 | a falsy body (`null`, `false`, `0`, `""`, `[]`) or an empty object gives the "You didn't write anything!" 400 response, exactly; a non-empty body missing email or sentence gives the fields-required 400; valid fields with an unknown email give 404; in those three cases both collections are unchanged; on success the prediction is a mood or "Unknown", the content echoes the sentence, only the user's `current_mode` changes (to the prediction) and the journal collection is the merge of entry `{id, title, sentence, prediction}` under today's date |
| Ingest.StepPreservesValid | main.py:74-126 | every request, accepted or rejected, keeps the state invariant: one bucket per date in every document, and documents only for existing users |
| Ingest.StepKeepsWellFormed | main.py:93-126 | every request, in any store state, keeps one bucket per date in every journal document |
| Ingest.AcceptedAddsOneEntry | main.py:78-132 | in any store state, an accepted request adds exactly one entry, to its own user's document, at the end of today's entries; no other user's entries change; the user's `current_mode` equals that entry's prediction |
| Ingest.TitleIsOptional | main.py:67-72 | a body with an email and a sentence but no title is accepted, and the stored entry has a null title |
| Ingest.MissingFieldRejected | main.py:67-72 | a non-empty object whose email or sentence is missing, JSON null or "" gets the fields-required 400 response, and neither collection changes |
| Scenarios.StepKeepsEntries | main.py:93-132 | in any store state, one request never removes a user or a journal entry |
| Scenarios.RunPreservesValid | main.py:60-138 | any sequence of requests keeps the invariant and the set of users, and only ever adds entries |
| Scenarios.FirstSubmission | main.py:115-126 | a user's first submission creates a document with exactly one bucket, dated today, holding exactly the new entry `{id, title, sentence, prediction}`, and sets `current_mode` to that prediction |
| Scenarios.SameDateTwice | main.py:97-104 | for a user with no journal document yet, two submissions on the same date end up in a single bucket holding both entries in submission order, and `current_mode` is the second prediction |
| Scenarios.TwoDates | main.py:105-114 | for a user with no journal document yet, two submissions on different dates end up in two buckets, one entry each, in arrival order |
| Scenarios.SubmitOnce | main.py:71-126 | one well-formed submission by a known user, whatever the user's document already holds, is accepted with the classifier's prediction, and that date's entries gain the new entry at their end |
| Scenarios.TwoOnOneDate | main.py:97-104 | for a user who may already have a document, two submissions on one date leave that date's entries ending with both new entries, in submission order |
| Scenarios.TwoOnOneDateKeepsDates | main.py:97-114 | for a known user and a collection with one bucket per date, two submissions on one date keep one bucket per date; the user's document then has exactly one bucket dated that day, and it holds the day's earlier entries followed by both new entries in submission order |
| Scenarios.NormalTwiceSameDay | main.py:36-132 | concrete case: "a@x.com" submits "I feel fine" (title "Day1") twice on one date and the classifier answers class 0 both times; the document is one bucket holding both entries labelled "Normal", and `current_mode` is "Normal" |

## Left out

- Text preprocessing, BERT encoding and XGBoost inference (main.py:25-26, 46-50, 55): TensorFlow and pickled-model calls with floating-point numerics. They are replaced by the parameter `classify: string -> int`, which is deterministic by construction.
- Loading the model file, and the message printed when it is missing (main.py:29-33): process-startup I/O. Only `FileNotFoundError` is caught (main.py:32); any other load error stops startup. After a caught missing file, requests rejected at main.py:63-76 still get their 400 or 404, and only a request that reaches the model call (main.py:55) fails, on the undefined `xgb_model`. That failure is not modelled.
- Flask routing, JSON parsing and the HTTP response bodies and status codes (main.py:14-16, 60-62, 134-144): `Outcome` names the four responses, and the messages and status codes are not modelled. A body that is truthy but not an object (a non-empty list, a non-zero number, a non-empty string, `true`) is not modelled. It passes main.py:63 and then fails on `data.get` at main.py:67. A missing or malformed JSON body is also left out: Flask's `get_json()` raises before main.py:63 is reached.
- JSON field values other than strings and null (numbers, booleans, arrays, objects): the handler never checks their types. A non-string sentence would only fail inside the left-out classifier. A truthy non-string email is more serious. It passes main.py:71 and goes unchanged into the store queries at main.py:74, 93, 101-102, 111-112, 126 and 129-131. An object such as `{"$ne": null}` then acts as a query operator. It can match another user's record, set that user's `current_mode`, and push into that user's journal. The frame properties of `Ingest.ModeTrack` (no other user record changes) and `Ingest.AcceptedAddsOneEntry` (no other user's entries change) therefore hold only for string emails, which is all the model admits.
- MongoDB client setup (main.py:17-23): both collections are in-memory maps keyed by email. `find_one`, `insert_one` and `update_one` are map lookups and updates. `$push` is sequence append, and the positional `$` update is an update at the first bucket with a matching date.
- `uuid.uuid4()` and `datetime.utcnow().strftime("%d-%m-%Y")` (main.py:80, 91): randomness and the clock are inputs. The model does not assume the id is fresh and does not check the date format. The service does no id-level deduplication either, so the same id twice gives two entries.
- Store failures and partial writes between the journal update and the `current_mode` update (main.py:101-132): the model treats each request as one atomic step.
- Concurrency: the race between reading the journal (main.py:93) and updating it (main.py:101, 111) belongs to the store, not to this sequential logic.
