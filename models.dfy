/**
 * The request and response schemas of the service and the field constraints
 * that validation enforces on a submitted feedback record.
 */
module Models {
  import opened Wrappers
  import opened Documents

  const MinTeamId := 1
  const MinRating := 1
  const MaxRating := 5
  const MinTextLength := 1
  const MaxTextLength := 1000

  /** The fixed-shape answers of one customer. */
  datatype Answers = Answers(
    onTime: bool,
    politeProfessional: bool,
    explainedService: bool,
    leftClean: bool,
    internetSpeedOk: bool,
    installationRating: int,
    helpfulnessRating: int,
    recommend: bool,
    likeMost: string,
    improve: string,
    additionalComments: Option<string>)

  /** The body of a create request once validated. */
  datatype FeedbackCreate = FeedbackCreate(teamId: int, answers: Answers)

  predicate ValidRating(r: int) {
    MinRating <= r <= MaxRating
  }

  predicate ValidText(s: string) {
    MinTextLength <= |s| <= MaxTextLength
  }

  /** The optional comment may be absent; when present it may be empty. */
  predicate ValidComment(c: Option<string>) {
    c.Some? ==> |c.value| <= MaxTextLength
  }

  predicate ValidAnswers(a: Answers) {
    && ValidRating(a.installationRating)
    && ValidRating(a.helpfulnessRating)
    && ValidText(a.likeMost)
    && ValidText(a.improve)
    && ValidComment(a.additionalComments)
  }

  predicate ValidFeedback(f: FeedbackCreate) {
    f.teamId >= MinTeamId && ValidAnswers(f.answers)
  }

  /**
   * A submitted body before validation: each field may be absent. An absent
   * and a null `additional_comments` are both `None`.
   */
  datatype AnswersInput = AnswersInput(
    onTime: Option<bool>,
    politeProfessional: Option<bool>,
    explainedService: Option<bool>,
    leftClean: Option<bool>,
    internetSpeedOk: Option<bool>,
    installationRating: Option<int>,
    helpfulnessRating: Option<int>,
    recommend: Option<bool>,
    likeMost: Option<string>,
    improve: Option<string>,
    additionalComments: Option<string>)

  datatype FeedbackInput = FeedbackInput(teamId: Option<int>, answers: Option<AnswersInput>)

  /** The body a client sends for an already typed record: every field present. */
  function Submitted(f: FeedbackCreate): FeedbackInput {
    var a := f.answers;
    FeedbackInput(Some(f.teamId), Some(AnswersInput(
      Some(a.onTime), Some(a.politeProfessional), Some(a.explainedService), Some(a.leftClean),
      Some(a.internetSpeedOk), Some(a.installationRating), Some(a.helpfulnessRating),
      Some(a.recommend), Some(a.likeMost), Some(a.improve), a.additionalComments)))
  }

  /** Why one field was rejected. */
  datatype Violation =
    | Missing
    | BelowMinimum(ge: int)
    | AboveMaximum(le: int)
    | TooShort(minLength: int)
    | TooLong(maxLength: int)

  /** A rejected field, located by its path in the body. */
  datatype FieldError = FieldError(loc: seq<string>, violation: Violation)

  /** A genuine error of a required boolean: it is absent. */
  predicate FlagBroken(name: string, v: Option<bool>, e: FieldError) {
    v.None? && e == FieldError([name], Missing)
  }

  /** A genuine error of a rating: absent, below 1 or above 5. */
  predicate RatingBroken(name: string, v: Option<int>, e: FieldError) {
    || (v.None? && e == FieldError([name], Missing))
    || (v.Some? && v.value < MinRating && e == FieldError([name], BelowMinimum(MinRating)))
    || (v.Some? && v.value > MaxRating && e == FieldError([name], AboveMaximum(MaxRating)))
  }

  /** A genuine error of a required text: absent, empty or longer than 1000. */
  predicate TextBroken(name: string, v: Option<string>, e: FieldError) {
    || (v.None? && e == FieldError([name], Missing))
    || (v.Some? && |v.value| < MinTextLength && e == FieldError([name], TooShort(MinTextLength)))
    || (v.Some? && |v.value| > MaxTextLength && e == FieldError([name], TooLong(MaxTextLength)))
  }

  /** A genuine error of the optional comment: present and longer than 1000. */
  predicate CommentBroken(name: string, v: Option<string>, e: FieldError) {
    v.Some? && |v.value| > MaxTextLength && e == FieldError([name], TooLong(MaxTextLength))
  }

  /** The errors that a broken constraint of the answers justifies. */
  predicate AnswersBroken(a: AnswersInput, e: FieldError) {
    || FlagBroken("on_time", a.onTime, e)
    || FlagBroken("polite_professional", a.politeProfessional, e)
    || FlagBroken("explained_service", a.explainedService, e)
    || FlagBroken("left_clean", a.leftClean, e)
    || FlagBroken("internet_speed_ok", a.internetSpeedOk, e)
    || RatingBroken("installation_rating", a.installationRating, e)
    || RatingBroken("helpfulness_rating", a.helpfulnessRating, e)
    || FlagBroken("recommend", a.recommend, e)
    || TextBroken("like_most", a.likeMost, e)
    || TextBroken("improve", a.improve, e)
    || CommentBroken("additional_comments", a.additionalComments, e)
  }

  /** A genuine error of the team id: absent or below 1. */
  predicate TeamIdBroken(v: Option<int>, e: FieldError) {
    || (v.None? && e == FieldError(["team_id"], Missing))
    || (v.Some? && v.value < MinTeamId && e == FieldError(["team_id"], BelowMinimum(MinTeamId)))
  }

  function CheckFlag(name: string, v: Option<bool>): (r: seq<FieldError>)
    ensures forall e :: e in r ==> FlagBroken(name, v, e)
    ensures v.None? ==> FieldError([name], Missing) in r
  {
    if v.None? then [FieldError([name], Missing)] else []
  }

  function CheckAtLeast(name: string, v: Option<int>, ge: int): seq<FieldError> {
    if v.None? then [FieldError([name], Missing)]
    else if v.value < ge then [FieldError([name], BelowMinimum(ge))]
    else []
  }

  function CheckRating(name: string, v: Option<int>): (r: seq<FieldError>)
    ensures forall e :: e in r ==> RatingBroken(name, v, e)
    ensures v.None? ==> FieldError([name], Missing) in r
    ensures v.Some? && v.value < MinRating ==> FieldError([name], BelowMinimum(MinRating)) in r
    ensures v.Some? && v.value > MaxRating ==> FieldError([name], AboveMaximum(MaxRating)) in r
  {
    if v.None? then [FieldError([name], Missing)]
    else if v.value < MinRating then [FieldError([name], BelowMinimum(MinRating))]
    else if v.value > MaxRating then [FieldError([name], AboveMaximum(MaxRating))]
    else []
  }

  function CheckText(name: string, v: Option<string>): (r: seq<FieldError>)
    ensures forall e :: e in r ==> TextBroken(name, v, e)
    ensures v.None? ==> FieldError([name], Missing) in r
    ensures v.Some? && |v.value| < MinTextLength ==> FieldError([name], TooShort(MinTextLength)) in r
    ensures v.Some? && |v.value| > MaxTextLength ==> FieldError([name], TooLong(MaxTextLength)) in r
  {
    if v.None? then [FieldError([name], Missing)]
    else if |v.value| < MinTextLength then [FieldError([name], TooShort(MinTextLength))]
    else if |v.value| > MaxTextLength then [FieldError([name], TooLong(MaxTextLength))]
    else []
  }

  function CheckComment(name: string, v: Option<string>): (r: seq<FieldError>)
    ensures forall e :: e in r ==> CommentBroken(name, v, e)
    ensures v.Some? && |v.value| > MaxTextLength ==> FieldError([name], TooLong(MaxTextLength)) in r
  {
    if v.Some? && |v.value| > MaxTextLength then [FieldError([name], TooLong(MaxTextLength))]
    else []
  }

  /** The errors of the first five booleans. */
  function ServiceFlagErrors(a: AnswersInput): (r: seq<FieldError>)
    ensures forall e :: e in r ==> AnswersBroken(a, e)
    ensures a.onTime.None? ==> FieldError(["on_time"], Missing) in r
    ensures a.politeProfessional.None? ==> FieldError(["polite_professional"], Missing) in r
    ensures a.explainedService.None? ==> FieldError(["explained_service"], Missing) in r
    ensures a.leftClean.None? ==> FieldError(["left_clean"], Missing) in r
    ensures a.internetSpeedOk.None? ==> FieldError(["internet_speed_ok"], Missing) in r
  {
    CheckFlag("on_time", a.onTime)
    + CheckFlag("polite_professional", a.politeProfessional)
    + CheckFlag("explained_service", a.explainedService)
    + CheckFlag("left_clean", a.leftClean)
    + CheckFlag("internet_speed_ok", a.internetSpeedOk)
  }

  /** The errors of the two ratings. */
  function RatingErrors(a: AnswersInput): (r: seq<FieldError>)
    ensures forall e :: e in r ==> AnswersBroken(a, e)
    ensures a.installationRating.None? ==> FieldError(["installation_rating"], Missing) in r
    ensures a.helpfulnessRating.None? ==> FieldError(["helpfulness_rating"], Missing) in r
    ensures a.installationRating.Some? && a.installationRating.value < 1 ==>
      FieldError(["installation_rating"], BelowMinimum(1)) in r
    ensures a.installationRating.Some? && a.installationRating.value > 5 ==>
      FieldError(["installation_rating"], AboveMaximum(5)) in r
    ensures a.helpfulnessRating.Some? && a.helpfulnessRating.value < 1 ==>
      FieldError(["helpfulness_rating"], BelowMinimum(1)) in r
    ensures a.helpfulnessRating.Some? && a.helpfulnessRating.value > 5 ==>
      FieldError(["helpfulness_rating"], AboveMaximum(5)) in r
  {
    CheckRating("installation_rating", a.installationRating)
    + CheckRating("helpfulness_rating", a.helpfulnessRating)
  }

  /** The errors of the recommendation and the three texts. */
  function RemainingErrors(a: AnswersInput): (r: seq<FieldError>)
    ensures forall e :: e in r ==> AnswersBroken(a, e)
    ensures a.recommend.None? ==> FieldError(["recommend"], Missing) in r
    ensures a.likeMost.None? ==> FieldError(["like_most"], Missing) in r
    ensures a.improve.None? ==> FieldError(["improve"], Missing) in r
    ensures a.likeMost.Some? && |a.likeMost.value| == 0 ==> FieldError(["like_most"], TooShort(1)) in r
    ensures a.likeMost.Some? && |a.likeMost.value| > 1000 ==> FieldError(["like_most"], TooLong(1000)) in r
    ensures a.improve.Some? && |a.improve.value| == 0 ==> FieldError(["improve"], TooShort(1)) in r
    ensures a.improve.Some? && |a.improve.value| > 1000 ==> FieldError(["improve"], TooLong(1000)) in r
    ensures a.additionalComments.Some? && |a.additionalComments.value| > 1000 ==>
      FieldError(["additional_comments"], TooLong(1000)) in r
  {
    CheckFlag("recommend", a.recommend)
    + CheckText("like_most", a.likeMost)
    + CheckText("improve", a.improve)
    + CheckComment("additional_comments", a.additionalComments)
  }

  /** The errors of a nested model, each reported under the prefix of its field. */
  function Nest(prefix: string, errors: seq<FieldError>): (r: seq<FieldError>)
    ensures |r| == |errors|
    ensures forall e :: e in errors ==> FieldError([prefix] + e.loc, e.violation) in r
    ensures forall x :: x in r ==> exists e :: e in errors && x == FieldError([prefix] + e.loc, e.violation)
  {
    if errors == [] then []
    else [FieldError([prefix] + errors[0].loc, errors[0].violation)] + Nest(prefix, errors[1..])
  }

  /**
   * Every rejected field of the answers: each broken
   * constraint is reported at its own field, and nothing else is reported,
   * so a field that meets its constraints never appears.
   */
  function AnswersErrors(a: AnswersInput): (r: seq<FieldError>)
    ensures forall e :: e in r ==> AnswersBroken(a, e)
    ensures a.onTime.None? ==> FieldError(["on_time"], Missing) in r
    ensures a.politeProfessional.None? ==> FieldError(["polite_professional"], Missing) in r
    ensures a.explainedService.None? ==> FieldError(["explained_service"], Missing) in r
    ensures a.leftClean.None? ==> FieldError(["left_clean"], Missing) in r
    ensures a.internetSpeedOk.None? ==> FieldError(["internet_speed_ok"], Missing) in r
    ensures a.recommend.None? ==> FieldError(["recommend"], Missing) in r
    ensures a.installationRating.None? ==> FieldError(["installation_rating"], Missing) in r
    ensures a.helpfulnessRating.None? ==> FieldError(["helpfulness_rating"], Missing) in r
    ensures a.likeMost.None? ==> FieldError(["like_most"], Missing) in r
    ensures a.improve.None? ==> FieldError(["improve"], Missing) in r
    ensures a.installationRating.Some? && a.installationRating.value < 1 ==>
      FieldError(["installation_rating"], BelowMinimum(1)) in r
    ensures a.installationRating.Some? && a.installationRating.value > 5 ==>
      FieldError(["installation_rating"], AboveMaximum(5)) in r
    ensures a.helpfulnessRating.Some? && a.helpfulnessRating.value < 1 ==>
      FieldError(["helpfulness_rating"], BelowMinimum(1)) in r
    ensures a.helpfulnessRating.Some? && a.helpfulnessRating.value > 5 ==>
      FieldError(["helpfulness_rating"], AboveMaximum(5)) in r
    ensures a.likeMost.Some? && |a.likeMost.value| == 0 ==>
      FieldError(["like_most"], TooShort(1)) in r
    ensures a.likeMost.Some? && |a.likeMost.value| > 1000 ==>
      FieldError(["like_most"], TooLong(1000)) in r
    ensures a.improve.Some? && |a.improve.value| == 0 ==>
      FieldError(["improve"], TooShort(1)) in r
    ensures a.improve.Some? && |a.improve.value| > 1000 ==>
      FieldError(["improve"], TooLong(1000)) in r
    ensures a.additionalComments.Some? && |a.additionalComments.value| > 1000 ==>
      FieldError(["additional_comments"], TooLong(1000)) in r
  {
    ServiceFlagErrors(a) + RatingErrors(a) + RemainingErrors(a)
  }

  /**
   * Every rejected field of the body: the team id's
   * own errors, a missing `answers`, or an error of the answers under the
   * `answers` prefix, and nothing else.
   */
  function Errors(input: FeedbackInput): (r: seq<FieldError>)
    ensures forall x :: x in r ==>
      || TeamIdBroken(input.teamId, x)
      || (input.answers.None? && x == FieldError(["answers"], Missing))
      || (input.answers.Some? && exists e :: e in AnswersErrors(input.answers.value)
                                           && x == FieldError(["answers"] + e.loc, e.violation))
    ensures input.teamId.None? ==> FieldError(["team_id"], Missing) in r
    ensures input.teamId.Some? && input.teamId.value < 1 ==> FieldError(["team_id"], BelowMinimum(1)) in r
    ensures input.answers.None? ==> FieldError(["answers"], Missing) in r
    ensures input.answers.Some? ==>
      forall e :: e in AnswersErrors(input.answers.value) ==> FieldError(["answers"] + e.loc, e.violation) in r
  {
    CheckAtLeast("team_id", input.teamId, MinTeamId)
    + (if input.answers.None? then [FieldError(["answers"], Missing)]
       else Nest("answers", AnswersErrors(input.answers.value)))
  }

  /** A valid record, submitted with every field present, draws no error. */
  lemma ValidSubmissionPasses(f: FeedbackCreate)
    requires ValidFeedback(f)
    ensures Errors(Submitted(f)) == []
  {
  }

  lemma ValidSubmissionsPass()
    ensures forall f {:trigger Submitted(f)} :: ValidFeedback(f) ==> Errors(Submitted(f)) == []
  {
    forall f | ValidFeedback(f) {
      ValidSubmissionPasses(f);
    }
  }

  /** A body that draws no error has every required field, each within its constraints. */
  lemma NoErrorsMeansComplete(input: FeedbackInput)
    requires Errors(input) == []
    ensures input.teamId.Some? && input.teamId.value >= MinTeamId && input.answers.Some?
    ensures var a := input.answers.value;
      && a.onTime.Some? && a.politeProfessional.Some? && a.explainedService.Some?
      && a.leftClean.Some? && a.internetSpeedOk.Some? && a.recommend.Some?
      && a.installationRating.Some? && ValidRating(a.installationRating.value)
      && a.helpfulnessRating.Some? && ValidRating(a.helpfulnessRating.value)
      && a.likeMost.Some? && ValidText(a.likeMost.value)
      && a.improve.Some? && ValidText(a.improve.value)
      && ValidComment(a.additionalComments)
  {
  }

  /**
   * Validation of a create request: the typed record, or every rejected field.
   * It accepts exactly the bodies that submit a valid record, and that record
   * is the one returned.
   */
  function Validate(input: FeedbackInput): (r: Result<FeedbackCreate, seq<FieldError>>)
    ensures r.Ok? ==> ValidFeedback(r.value) && input == Submitted(r.value)
    ensures forall f {:trigger Submitted(f)} :: input == Submitted(f) && ValidFeedback(f) ==> r == Ok(f)
    ensures r.Err? ==> r.error != [] && r.error == Errors(input)
  {
    ValidSubmissionsPass();
    var errors := Errors(input);
    if errors != [] then Err(errors)
    else
      NoErrorsMeansComplete(input);
      var a := input.answers.value;
      Ok(FeedbackCreate(input.teamId.value, Answers(
        a.onTime.value, a.politeProfessional.value, a.explainedService.value, a.leftClean.value,
        a.internetSpeedOk.value, a.installationRating.value, a.helpfulnessRating.value,
        a.recommend.value, a.likeMost.value, a.improve.value, a.additionalComments)))
  }

  /** `BaseModel.dict()` of the answers: one key per field, a missing comment as null. */
  function AnswersDict(a: Answers): map<string, Value> {
    map[
      "on_time" := Bool(a.onTime),
      "polite_professional" := Bool(a.politeProfessional),
      "explained_service" := Bool(a.explainedService),
      "left_clean" := Bool(a.leftClean),
      "internet_speed_ok" := Bool(a.internetSpeedOk),
      "installation_rating" := Int(a.installationRating),
      "helpfulness_rating" := Int(a.helpfulnessRating),
      "recommend" := Bool(a.recommend),
      "like_most" := Str(a.likeMost),
      "improve" := Str(a.improve),
      "additional_comments" := if a.additionalComments.Some? then Str(a.additionalComments.value) else Null]
  }

  /** `BaseModel.dict()` of a create request. */
  function FeedbackDict(f: FeedbackCreate): map<string, Value> {
    map["team_id" := Int(f.teamId), "answers" := Object(AnswersDict(f.answers))]
  }

  /** The stored answers determine the submitted answers: nothing is lost by `dict()`. */
  lemma AnswersDictInjective(a: Answers, b: Answers)
    requires AnswersDict(a) == AnswersDict(b)
    ensures a == b
  {
    var m, n := AnswersDict(a), AnswersDict(b);
    assert m["on_time"] == n["on_time"];
    assert m["polite_professional"] == n["polite_professional"];
    assert m["explained_service"] == n["explained_service"];
    assert m["left_clean"] == n["left_clean"];
    assert m["internet_speed_ok"] == n["internet_speed_ok"];
    assert m["installation_rating"] == n["installation_rating"];
    assert m["helpfulness_rating"] == n["helpfulness_rating"];
    assert m["recommend"] == n["recommend"];
    assert m["like_most"] == n["like_most"];
    assert m["improve"] == n["improve"];
    assert m["additional_comments"] == n["additional_comments"];
  }

  /** The analysis response: counts, a dict, two string lists and a timestamp text. */
  datatype AnalysisResponse = AnalysisResponse(
    totalFeedbackCount: int,
    teamsAnalyzed: int,
    analysis: map<string, Value>,
    keyInsights: seq<string>,
    recommendations: seq<string>,
    analyzedAt: string)

  predicate StringList(v: Value) {
    v.List? && forall i :: 0 <= i < |v.items| ==> v.items[i].Str?
  }

  function Strings(items: seq<Value>): (r: seq<string>)
    requires forall i :: 0 <= i < |items| ==> items[i].Str?
    ensures |r| == |items|
    ensures forall i :: 0 <= i < |items| ==> items[i] == Str(r[i])
  {
    if items == [] then [] else [items[0].s] + Strings(items[1..])
  }

  /**
   * Reading a result dict against the response schema: it conforms exactly
   * when `analysis` is a dict and both lists hold only strings, and then the
   * response carries the same data.
   */
  function AsResponse(total: int, teams: int, analysis: Value, insights: Value, recommendations: Value, at: string)
    : (r: Option<AnalysisResponse>)
    ensures r.Some? <==> analysis.Object? && StringList(insights) && StringList(recommendations)
    ensures r.Some? ==>
      && r.value.totalFeedbackCount == total && r.value.teamsAnalyzed == teams
      && Object(r.value.analysis) == analysis && r.value.analyzedAt == at
      && |r.value.keyInsights| == |insights.items|
      && (forall i :: 0 <= i < |insights.items| ==> insights.items[i] == Str(r.value.keyInsights[i]))
      && |r.value.recommendations| == |recommendations.items|
      && (forall i :: 0 <= i < |recommendations.items| ==> recommendations.items[i] == Str(r.value.recommendations[i]))
  {
    if analysis.Object? && StringList(insights) && StringList(recommendations) then
      Some(AnalysisResponse(total, teams, analysis.fields, Strings(insights.items), Strings(recommendations.items), at))
    else None
  }
}
