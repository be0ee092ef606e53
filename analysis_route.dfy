/**
 * The analysis endpoint: fetch every record, answer 404 when there are
 * none, otherwise hand them to the analysis step, and map what is raised
 * to an HTTP error.
 */
module AnalysisRoute {
  import opened Wrappers
  import opened Documents
  import Models
  import FeedbackService
  import AiService

  /** A call the endpoint makes to a service, in the order made. */
  datatype Call = FetchAll | Analyze(feedbacks: seq<Document>)

  /** The endpoint's answer and the calls it made to obtain it. */
  datatype Handled = Handled(response: Result<AiService.AnalysisResult, Exception>, calls: seq<Call>)

  const NoFeedbacks := HttpError(404, "No feedbacks found")

  /** The exception handlers: an `HTTPException` is re-raised, any other becomes a 500 with its text. */
  function AtBoundary(e: Exception): Exception {
    match e
    case HttpError(_, _) => e
    case Raised(_, message) => HttpError(500, message)
  }

  /**
   * `get_ai_analysis`: `fetched` is what fetching every record gave, and
   * `analyze` is the analysis step. The records are fetched once, first;
   * the analysis step is called only, and exactly once, on a non-empty
   * result, with that result; its value is returned unchanged; every error
   * leaves the endpoint as an HTTP error.
   */
  function GetAiAnalysis(
    fetched: Result<seq<Document>, Exception>,
    analyze: seq<Document> -> Result<AiService.AnalysisResult, Exception>)
    : (r: Handled)
    ensures 1 <= |r.calls| <= 2 && r.calls[0] == FetchAll
    ensures |r.calls| == 2 <==> fetched.Ok? && fetched.value != []
    ensures |r.calls| == 2 ==> r.calls[1] == Analyze(fetched.value)
    ensures fetched == Ok([]) ==> r.response == Err(NoFeedbacks)
    ensures fetched.Err? && fetched.error.HttpError? ==> r.response == Err(fetched.error)
    ensures fetched.Err? && fetched.error.Raised? ==> r.response == Err(HttpError(500, fetched.error.message))
    ensures fetched.Ok? && fetched.value != [] ==>
      var out := analyze(fetched.value);
      && (out.Ok? ==> r.response == out)
      && (out.Err? && out.error.HttpError? ==> r.response == out)
      && (out.Err? && out.error.Raised? ==> r.response == Err(HttpError(500, out.error.message)))
    ensures r.response.Err? ==> r.response.error.HttpError?
  {
    match fetched
    case Err(e) => Handled(Err(AtBoundary(e)), [FetchAll])
    case Ok(feedbacks) =>
      if feedbacks == [] then Handled(Err(AtBoundary(NoFeedbacks)), [FetchAll])
      else
        match analyze(feedbacks)
        case Err(e) => Handled(Err(AtBoundary(e)), [FetchAll, Analyze(feedbacks)])
        case Ok(result) => Handled(Ok(result), [FetchAll, Analyze(feedbacks)])
  }

  /**
   * A record stored by the create operation after validation has the integer
   * team id it was submitted with, and that id is at least 1: such records
   * meet what `AiService.TeamKeysOfCreated` and `AnalysisOfCreatedRecords`
   * require of a store.
   */
  lemma ValidatedRecordQualifies(input: Models.FeedbackInput, f: Models.FeedbackCreate, now: int, oid: ObjectId)
    requires Models.Validate(input) == Ok(f)
    ensures AiService.TeamId(FeedbackService.StoredDocument(f, now, oid)) == Int(f.teamId)
    ensures f.teamId >= Models.MinTeamId
  {
  }

  /**
   * The endpoint with the analysis service: for a non-empty store of
   * records as created (integer team ids of at least 1, see
   * `ValidatedRecordQualifies`) and a reply that is
   * a JSON dict, the response reports every record and the number of
   * distinct team ids.
   */
  lemma {:induction false} AnalysisOfCreatedRecords(
    docs: seq<Document>, complete: (seq<Value>, nat) -> AiService.Reply, now: string)
    requires docs != []
    requires forall i :: 0 <= i < |docs| ==>
      AiService.TeamId(docs[i]).Int? && AiService.TeamId(docs[i]).i >= 1
    requires complete(AiService.FeedbackData(docs), |docs|).Parsed?
    requires complete(AiService.FeedbackData(docs), |docs|).value.Object?
    ensures var r := GetAiAnalysis(Ok(docs), d => AiService.Analysis(d, complete, now));
      && r.calls == [FetchAll, Analyze(docs)]
      && r.response.Ok?
      && r.response.value.totalFeedbackCount == |docs|
      && r.response.value.teamsAnalyzed == |set fb | fb in docs :: AiService.TeamId(fb)|
      && r.response.value.teamsAnalyzed <= |docs|
      && r.response.value.analyzedAt == now
  {
    AiService.TeamKeysOfCreated(docs);
    AiService.TeamsAtMostRecords(docs);
  }
}
