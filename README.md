# Installation-team feedback service: a Dafny model

The service stores customer feedback about internet installation teams in a
document collection and produces an analysis report by sending every record
to a hosted language model. This project models the part of that behaviour
the repository itself decides:

- **Validation** (`Models`, `models.py`): the constraints on a submitted
  record (team id at least 1, two ratings in 1..5, two required texts of 1
  to 1000 characters, an optional comment of at most 1000, six required
  booleans) as a predicate over a datatype, and a validator that returns
  the typed record or every rejected field. Also the shape of the analysis
  response.
- **Record store** (`FeedbackService`, `feedback_service.py`): a class
  `FeedbackCollection` whose field `docs` is the collection, with create,
  paged listing newest first, lookup by identifier and fetch-all; the
  response mapping of a stored document; the create-then-lookup round trip.
- **Analysis reshaping** (`AiService`, `ai_service.py`): the distinct-team
  count with Python's set semantics, the projection loop that builds the
  data sent to the model, and the reconciliation of the model's reply with
  the locally computed counts.
- **Analysis endpoint** (`AnalysisRoute`, `routes/analysis.py`): the 404 on
  an empty store, the hand-off to the analysis step and the mapping of
  exceptions to HTTP errors, with a log of the calls made.

`Documents` holds the value model shared by all of them: BSON/JSON values,
stored documents (an ObjectId `_id` beside the other fields), Python
truthiness, set-element equality (`True == 1`), type names, and exceptions.

Abstracted as parameters: the time (`now`), the new document identifier,
store failures (an optional message per store call), `ObjectId.is_valid`
with the `ObjectId(...)` conversion (one uninterpreted `parse` function),
and the language-model step (prompt rendering, the call and `json.loads`,
as a function from the projected data and the record count to a `Reply`).

The analysis sends raw per-record data and computes no per-team averages or
scores; listing has no team filter; a missing field of the model's reply
defaults to `{}` or `[]` only when the key is absent (a present `null` is
kept).

## Model

| member | source | states |
|---|---|---|
| Models.Validate | app/models.py:5-20 | accepts exactly a body that submits a valid record and returns that record; a rejected body lists at least one error, and its list is exactly `Errors` of the body |
| Models.AnswersErrors | app/models.py:5-16 | each missing boolean, rating or required text, each rating below 1 or above 5, each text shorter than 1 or longer than 1000, and a comment longer than 1000 is reported at its own field; nothing else is reported, so a field within its constraints never appears |
| Models.Errors | app/models.py:18-20 | a missing team id, a team id below 1 and missing answers are reported at the top level, and every error of the answers under the `answers` prefix; every reported error is one of these |
| Models.ValidSubmissionPasses | app/models.py:5-20 | a valid record submitted with every field present draws no error |
| Models.NoErrorsMeansComplete | app/models.py:5-20 | a body that draws no error has every required field, each within its constraints |
| Models.AnswersDictInjective | app/services/feedback_service.py:28 | the stored `dict()` of the answers determines the submitted answers |
| Models.AsResponse | app/models.py:28-34 | a result conforms to the response schema exactly when `analysis` is a dict and both lists hold only strings, and then carries the same data |
| FeedbackService.Helper | app/services/feedback_service.py:15-22 | the view is the `_id` text plus the three stored fields copied unchanged; a missing field raises `KeyError` for the first missing key |
| FeedbackService.MapHelper | app/services/feedback_service.py:59 | every document mapped in order, or the error of the first document that cannot be mapped |
| FeedbackService.FindById | app/services/feedback_service.py:76 | finds nothing exactly when no document has the identifier; what it finds is stored and has that identifier |
| FeedbackService.FindByIdUnique | app/services/feedback_service.py:76 | with unique identifiers, looking up a stored document's identifier finds that document |
| FeedbackService.CreatedView | app/services/feedback_service.py:28-38 | the view of a created document is the new id, the team id, the answers' `dict()` and the creation time |
| FeedbackService.Lookup | app/services/feedback_service.py:65-81 | a found view carries the identifier that was asked for, and an identifier no stored document has finds nothing; that every stored document is found with its own view is `FeedbackService.LookupFindsStored`, and the create-then-lookup round trip is `FeedbackService.LookupFindsCreated` |
| FeedbackService.LookupFindsStored | app/services/feedback_service.py:65-81 | with unique identifiers, looking up any stored document's identifier yields that document's `feedback_helper` view, or the error of mapping it |
| FeedbackService.LookupFindsCreated | app/services/feedback_service.py:24-81 | a create followed by a lookup with the returned id yields the created record, and identifiers stay unique |
| FeedbackService.Page | app/services/feedback_service.py:55-56 | a page holds at most `limit` documents; its order and origin are given by `FeedbackService.SortKeeps` and `FeedbackService.PageShape` |
| FeedbackService.SortKeeps | app/services/feedback_service.py:55 | the sort on `created_at` orders newest first and keeps every document |
| FeedbackService.PageShape | app/services/feedback_service.py:55-56 | a page holds at most `limit` stored documents, newest first |
| FeedbackService.FullPageKeepsAll | app/services/feedback_service.py:55-56 | a page as large as the collection holds every stored document exactly as often as stored |
| FeedbackService.PagesTile | app/services/feedback_service.py:55 | consecutive pages concatenate to the larger page |
| FeedbackService.FeedbackCollection.CreateFeedback | app/services/feedback_service.py:24-42 | the store grows by exactly the request's fields plus `created_at` and `_id`, and the view of that document is returned; a record with an integer outside signed 64 bits raises `OverflowError`, and an insert failure or a taken id raises, all three storing nothing; a read-back failure raises |
| FeedbackService.ValidButUnencodable | app/services/feedback_service.py:33 | some record that passes validation (a team id of 2^63) is refused by the BSON encoder |
| FeedbackService.FeedbackCollection.GetFeedbacks | app/services/feedback_service.py:44-63 | the mapped page of the newest-first collection, at most `limit` records; store failures are raised |
| FeedbackService.FeedbackCollection.GetFeedbackById | app/services/feedback_service.py:65-85 | an identifier `ObjectId.is_valid` rejects gives `None` without querying the store; a valid one with no match gives `None`; otherwise the view of the match; store failures are raised |
| FeedbackService.FeedbackCollection.GetAllFeedbacks | app/services/feedback_service.py:87-96 | every stored document, raw and in store order, and the store is untouched; store failures are raised |
| AiService.TeamKeys | app/services/ai_service.py:21 | the only failure of the count is a `TypeError`; which keys the set holds and when it fails is given by `AiService.TeamKeysMembers`, `AiService.TeamKeysFails` and `AiService.TeamKeysFailsAtFirst` |
| AiService.TeamKeysMembers | app/services/ai_service.py:21 | the team set holds exactly the truthy team ids (Python-equal ones merged); missing, null and zero ids are not counted |
| AiService.TeamKeysFails | app/services/ai_service.py:21 | the count raises exactly when some truthy team id is a list or dict |
| AiService.TeamKeysFailsAtFirst | app/services/ai_service.py:21 | a failing count raises `TypeError` naming the type of the first truthy list or dict team id |
| AiService.TeamsAtMostRecords | app/services/ai_service.py:21 | there are never more distinct teams than records |
| AnalysisRoute.ValidatedRecordQualifies | app/services/feedback_service.py:28-33 | a validated, stored record has the integer team id it was submitted with, at least 1 |
| AiService.TeamKeysOfCreated | app/services/ai_service.py:21 | for records with integer team ids of at least 1, the count is the number of distinct ids |
| AiService.Project | app/services/ai_service.py:26-29 | an entry keeps only `team_id` and `answers`, null and `{}` standing in for absent values |
| AiService.Reconcile | app/services/ai_service.py:77-91 | a non-JSON reply raises `JSONDecodeError`, a non-dict reply `AttributeError`, a failed call its error; otherwise the counts and time are the local ones and each reply field is taken or defaults to `{}`, `[]`, `[]` |
| AiService.CountsNotOverridden | app/services/ai_service.py:80-87 | a reply's own `total_feedback_count`, `teams_analyzed` or `analyzed_at` changes nothing in the result |
| AiService.ReconciledConforms | app/services/ai_service.py:80-87 | a reply whose present fields have the schema's shapes yields a result that conforms to the response schema |
| AiService.Analysis | app/services/ai_service.py:17-94 | a successful analysis reports one count per record and, as its team count, the size of the distinct-team set, at most the record count; for created records the counts are given by `AnalysisRoute.AnalysisOfCreatedRecords` |
| AiService.ComprehensiveAnalysis | app/services/ai_service.py:17-94 | the loop builds one projected entry per record in order; the result is the reconciled reply with the record count equal to the input length and the team count at most it |
| AnalysisRoute.GetAiAnalysis | app/routes/analysis.py:14-33 | records are fetched once, first; an empty store gives 404 "No feedbacks found" and never calls the analysis; a non-empty store calls it once with the records and returns its result unchanged; an HTTP error passes through; any other error becomes a 500 with its message |
| AnalysisRoute.AnalysisOfCreatedRecords | app/routes/analysis.py:19-27 | for a non-empty store of created records and a dict reply, the response counts every record and the distinct team ids |

## Left out

- The language-model client and call, the prompt text and its `json.dumps` rendering, and `json.loads`: foreign calls; the model receives their outcome as a `Reply` computed from the projected data and the record count. A `TypeError` from serialising non-JSON values (an ObjectId or a date inside a stored `team_id` or `answers`) is not modelled.
- `datetime.utcnow()`: the times are parameters (`now`).
- MongoDB and its driver: the collection is a sequence; the sort is an insertion sort on `created_at` dates with undated documents last (the server's ordering among other BSON types and among equal dates is not modelled); `skip` and `limit` are slicing.
- FeedbackService.FeedbackCollection.GetFeedbacks: requires `limit >= 1` and takes `skip` as a natural number; the server's treatment of `limit(0)` (no limit) and of a negative limit, and the driver's `ValueError` on a negative `skip`, are not modelled.
- ObjectId format rules: `ObjectId.is_valid` and the conversion are one uninterpreted `parse` parameter; the round trip assumes `parse` accepts the text of a stored identifier.
- Documents whose `_id` is not an ObjectId: every stored document carries an ObjectId identifier, as the only writer in the repository lets the driver assign it.
- Server error messages: a duplicate identifier raises an error with only the fixed prefix of the server's text.
- Floating-point values: numbers are integers.
- The response-model enforcement by the web framework after the endpoint returns is described by `Models.AsResponse` but not applied in `AnalysisRoute.GetAiAnalysis`.
- Pydantic type coercion and unknown extra fields, both of a request body and of the analysis response: validation is over already-typed values, and `Models.AsResponse` is the non-coercing schema check, so a response whose lists hold numbers (which pydantic v1 turns into strings) or whose `analysis` is a list of pairs (which it turns into a dict) is rejected by the model but accepted by the framework.
- `app/routes/feedback.py`, `app/database.py`, `app/main.py` and `app/config.py`: HTTP plumbing, connection lifecycle and configuration. The list route passes a `team_id` argument that the service does not accept, so no team filter is modelled.
- Logging and `print`, async execution and concurrency: every request is sequential.
