/**
 * The analysis service: counting the distinct teams, projecting each record
 * to the data sent to the language model, and reconciling the model's reply
 * with the counts computed locally.
 */
module AiService {
  import opened Wrappers
  import opened Documents
  import Models

  /** `fb.get("team_id")`. */
  function TeamId(fb: Document): Value {
    Get(fb, "team_id", Null)
  }

  /** A record whose `team_id` takes part in the count. */
  predicate Counted(fb: Document) {
    Truthy(TeamId(fb))
  }

  function Unhashable(v: Value): Exception {
    Raised(TypeError, "unhashable type: '" + TypeName(v) + "'")
  }

  /**
   * `set(fb.get("team_id") for fb in feedbacks if fb.get("team_id"))`: the
   * set of truthy team ids, built in order; a truthy list or dict raises
   * `TypeError` when it reaches the set.
   */
  function TeamKeys(feedbacks: seq<Document>): (r: Result<set<Value>, Exception>)
    ensures r.Err? ==> r.error.Raised? && r.error.kind == TypeError
  {
    if feedbacks == [] then Ok({})
    else
      var t := TeamId(feedbacks[0]);
      if Truthy(t) && !Hashable(t) then Err(Unhashable(t))
      else
        match TeamKeys(feedbacks[1..])
        case Err(e) => Err(e)
        case Ok(rest) => Ok((if Truthy(t) then {SetKey(t)} else {}) + rest)
  }

  /**
   * The set holds exactly the (Python-equal) truthy team ids: a record with
   * a missing, null, zero or otherwise falsy team id adds nothing.
   */
  lemma {:induction false} TeamKeysMembers(feedbacks: seq<Document>)
    requires TeamKeys(feedbacks).Ok?
    ensures forall k :: k in TeamKeys(feedbacks).value <==>
      exists i :: 0 <= i < |feedbacks| && Counted(feedbacks[i]) && SetKey(TeamId(feedbacks[i])) == k
  {
    if feedbacks != [] {
      var rest := feedbacks[1..];
      TeamKeysMembers(rest);
      forall k ensures k in TeamKeys(feedbacks).value <==>
        exists i :: 0 <= i < |feedbacks| && Counted(feedbacks[i]) && SetKey(TeamId(feedbacks[i])) == k
      {
        if k in TeamKeys(rest).value {
          var i :| 0 <= i < |rest| && Counted(rest[i]) && SetKey(TeamId(rest[i])) == k;
          assert feedbacks[i + 1] == rest[i];
        }
        if exists i :: 0 <= i < |feedbacks| && Counted(feedbacks[i]) && SetKey(TeamId(feedbacks[i])) == k {
          var i :| 0 <= i < |feedbacks| && Counted(feedbacks[i]) && SetKey(TeamId(feedbacks[i])) == k;
          if i > 0 { assert rest[i - 1] == feedbacks[i]; }
        }
      }
    }
  }

  /** The count fails exactly when some truthy team id is a list or a dict. */
  lemma {:induction false} TeamKeysFails(feedbacks: seq<Document>)
    ensures TeamKeys(feedbacks).Err? <==>
      exists i :: 0 <= i < |feedbacks| && Counted(feedbacks[i]) && !Hashable(TeamId(feedbacks[i]))
  {
    if feedbacks != [] {
      var rest := feedbacks[1..];
      TeamKeysFails(rest);
      var t := TeamId(feedbacks[0]);
      if !(Truthy(t) && !Hashable(t)) {
        if exists i :: 0 <= i < |feedbacks| && Counted(feedbacks[i]) && !Hashable(TeamId(feedbacks[i])) {
          var i :| 0 <= i < |feedbacks| && Counted(feedbacks[i]) && !Hashable(TeamId(feedbacks[i]));
          assert rest[i - 1] == feedbacks[i];
        }
        if TeamKeys(rest).Err? {
          var i :| 0 <= i < |rest| && Counted(rest[i]) && !Hashable(TeamId(rest[i]));
          assert feedbacks[i + 1] == rest[i];
        }
      }
    }
  }

  /** A failing count names the first truthy team id that is a list or a dict. */
  lemma {:induction false} TeamKeysFailsAtFirst(feedbacks: seq<Document>)
    requires TeamKeys(feedbacks).Err?
    ensures exists i ::
      && 0 <= i < |feedbacks| && Counted(feedbacks[i]) && !Hashable(TeamId(feedbacks[i]))
      && TeamKeys(feedbacks).error == Unhashable(TeamId(feedbacks[i]))
      && forall j :: 0 <= j < i ==> !Counted(feedbacks[j]) || Hashable(TeamId(feedbacks[j]))
  {
    var t := TeamId(feedbacks[0]);
    if !(Truthy(t) && !Hashable(t)) {
      var rest := feedbacks[1..];
      TeamKeysFailsAtFirst(rest);
      var i :| 0 <= i < |rest| && Counted(rest[i]) && !Hashable(TeamId(rest[i]))
        && TeamKeys(rest).error == Unhashable(TeamId(rest[i]))
        && forall j :: 0 <= j < i ==> !Counted(rest[j]) || Hashable(TeamId(rest[j]));
      assert feedbacks[i + 1] == rest[i];
      forall j | 0 <= j < i + 1 ensures !Counted(feedbacks[j]) || Hashable(TeamId(feedbacks[j])) {
        if j > 0 { assert feedbacks[j] == rest[j - 1]; }
      }
    }
  }

  /** There are never more distinct teams than records. */
  lemma {:induction false} TeamsAtMostRecords(feedbacks: seq<Document>)
    requires TeamKeys(feedbacks).Ok?
    ensures |TeamKeys(feedbacks).value| <= |feedbacks|
  {
    if feedbacks != [] {
      var t := TeamId(feedbacks[0]);
      TeamsAtMostRecords(feedbacks[1..]);
      var rest := TeamKeys(feedbacks[1..]).value;
      var head: set<Value> := if Truthy(t) then {SetKey(t)} else {};
      assert |head + rest| <= |head| + |rest| by {
        assert |head + rest| == |head| + |rest| - |head * rest|;
      }
    }
  }

  /**
   * For records as the create operation stores them (an integer team id of
   * at least 1, as `AnalysisRoute.ValidatedRecordQualifies` shows of every
   * validated record), the count succeeds and counts the distinct team ids.
   */
  lemma {:induction false} TeamKeysOfCreated(feedbacks: seq<Document>)
    requires forall i :: 0 <= i < |feedbacks| ==> TeamId(feedbacks[i]).Int? && TeamId(feedbacks[i]).i >= 1
    ensures TeamKeys(feedbacks) == Ok(set fb | fb in feedbacks :: TeamId(fb))
  {
    if feedbacks != [] {
      var rest := feedbacks[1..];
      assert forall i :: 0 <= i < |rest| ==> rest[i] == feedbacks[i + 1];
      TeamKeysOfCreated(rest);
      var t := TeamId(feedbacks[0]);
      assert Truthy(t) && Hashable(t) && SetKey(t) == t;
      var all := set fb | fb in feedbacks :: TeamId(fb);
      var tail := set fb | fb in rest :: TeamId(fb);
      assert all == {t} + tail by {
        assert feedbacks == [feedbacks[0]] + rest;
      }
      assert TeamKeys(rest) == Ok(tail);
      assert TeamKeys(feedbacks) == Ok({t} + tail);
    } else {
      assert (set fb | fb in feedbacks :: TeamId(fb)) == {};
    }
  }

  /** One entry of `feedback_data`: the record's team id and its answers, `{}` when it has none. */
  function Project(fb: Document): (r: Value)
    ensures r.Object? && r.fields.Keys == {"team_id", "answers"}
    ensures r.fields["team_id"] == (if "team_id" in fb.fields then fb.fields["team_id"] else Null)
    ensures r.fields["answers"] == (if "answers" in fb.fields then fb.fields["answers"] else Object(map[]))
  {
    Object(map["team_id" := Get(fb, "team_id", Null), "answers" := Get(fb, "answers", Object(map[]))])
  }

  /** The whole of `feedback_data`. */
  function FeedbackData(feedbacks: seq<Document>): seq<Value> {
    seq(|feedbacks|, i requires 0 <= i < |feedbacks| => Project(feedbacks[i]))
  }

  /**
   * The outcome of asking the language model: the reply parsed as JSON, a
   * reply that is not JSON (with the decoder's message), or a failed call.
   */
  datatype Reply =
    | Parsed(value: Value)
    | NotJson(message: string)
    | CallFailed(message: string)

  /** The dict the service returns. */
  datatype AnalysisResult = AnalysisResult(
    totalFeedbackCount: int,
    teamsAnalyzed: int,
    analysis: Value,
    keyInsights: Value,
    recommendations: Value,
    analyzedAt: string)

  /** `ai_result.get(key, default)`. */
  function Field(reply: map<string, Value>, key: string, default: Value): Value {
    if key in reply then reply[key] else default
  }

  /**
   * Builds the result from the reply: a reply that is not JSON raises
   * `JSONDecodeError`; JSON that is not a dict has no `get` and raises
   * `AttributeError`; otherwise the three reply fields are taken, each with
   * its empty default when absent, beside the counts and the time given.
   */
  function Reconcile(reply: Reply, total: int, teams: int, now: string): (r: Result<AnalysisResult, Exception>)
    ensures r.Ok? <==> reply.Parsed? && reply.value.Object?
    ensures reply.NotJson? ==> r == Err(Raised(JSONDecodeError, reply.message))
    ensures reply.CallFailed? ==> r == Err(Raised(OpenAIError, reply.message))
    ensures reply.Parsed? && !reply.value.Object? ==>
      r == Err(Raised(AttributeError, "'" + TypeName(reply.value) + "' object has no attribute 'get'"))
    ensures r.Ok? ==>
      && r.value.totalFeedbackCount == total && r.value.teamsAnalyzed == teams && r.value.analyzedAt == now
      && ("analysis" !in reply.value.fields ==> r.value.analysis == Object(map[]))
      && ("key_insights" !in reply.value.fields ==> r.value.keyInsights == List([]))
      && ("recommendations" !in reply.value.fields ==> r.value.recommendations == List([]))
      && ("analysis" in reply.value.fields ==> r.value.analysis == reply.value.fields["analysis"])
      && ("key_insights" in reply.value.fields ==> r.value.keyInsights == reply.value.fields["key_insights"])
      && ("recommendations" in reply.value.fields ==> r.value.recommendations == reply.value.fields["recommendations"])
  {
    match reply
    case CallFailed(m) => Err(Raised(OpenAIError, m))
    case NotJson(m) => Err(Raised(JSONDecodeError, m))
    case Parsed(v) =>
      if !v.Object? then Err(Raised(AttributeError, "'" + TypeName(v) + "' object has no attribute 'get'"))
      else Ok(AnalysisResult(
        total, teams,
        Field(v.fields, "analysis", Object(map[])),
        Field(v.fields, "key_insights", List([])),
        Field(v.fields, "recommendations", List([])),
        now))
  }

  /**
   * The counts come from local data only: a reply that carries its own
   * `total_feedback_count` or `teams_analyzed` changes nothing.
   */
  lemma CountsNotOverridden(m: map<string, Value>, key: string, v: Value, total: int, teams: int, now: string)
    requires key in {"total_feedback_count", "teams_analyzed", "analyzed_at"}
    ensures Reconcile(Parsed(Object(m[key := v])), total, teams, now) == Reconcile(Parsed(Object(m)), total, teams, now)
  {
  }

  /**
   * A reply whose fields, where present, have the shapes the response schema
   * asks for yields a result that conforms to that schema.
   */
  lemma ReconciledConforms(m: map<string, Value>, total: int, teams: int, now: string)
    requires "analysis" in m ==> m["analysis"].Object?
    requires "key_insights" in m ==> Models.StringList(m["key_insights"])
    requires "recommendations" in m ==> Models.StringList(m["recommendations"])
    ensures Reconcile(Parsed(Object(m)), total, teams, now).Ok?
    ensures var r := Reconcile(Parsed(Object(m)), total, teams, now).value;
      Models.AsResponse(r.totalFeedbackCount, r.teamsAnalyzed, r.analysis, r.keyInsights, r.recommendations, r.analyzedAt).Some?
  {
  }

  /**
   * `comprehensive_analysis` as a function of its inputs: `complete` stands
   * for rendering the prompt from `feedback_data` and the record count,
   * calling the model and decoding its reply; `now` is the time reported.
   */
  function Analysis(feedbacks: seq<Document>, complete: (seq<Value>, nat) -> Reply, now: string)
    : (r: Result<AnalysisResult, Exception>)
    ensures r.Ok? ==> r.value.totalFeedbackCount == |feedbacks| && 0 <= r.value.teamsAnalyzed <= |feedbacks|
    ensures r.Ok? ==> TeamKeys(feedbacks).Ok? && r.value.teamsAnalyzed == |TeamKeys(feedbacks).value|
  {
    match TeamKeys(feedbacks)
    case Err(e) => Err(e)
    case Ok(keys) =>
      TeamsAtMostRecords(feedbacks);
      Reconcile(complete(FeedbackData(feedbacks), |feedbacks|), |feedbacks|, |keys|, now)
  }

  /**
   * The analysis: the distinct teams are counted, `feedback_data` is built
   * record by record, the model is asked, and its reply is reconciled. The
   * count of records is the length of the input and bounds the team count.
   */
  method ComprehensiveAnalysis(feedbacks: seq<Document>, complete: (seq<Value>, nat) -> Reply, now: string)
    returns (r: Result<AnalysisResult, Exception>)
    ensures r == Analysis(feedbacks, complete, now)
    ensures r.Ok? ==> r.value.totalFeedbackCount == |feedbacks|
    ensures r.Ok? ==> 0 <= r.value.teamsAnalyzed <= r.value.totalFeedbackCount
  {
    var keys := TeamKeys(feedbacks);
    if keys.Err? {
      return Err(keys.error);
    }
    TeamsAtMostRecords(feedbacks);
    var data: seq<Value> := [];
    var i := 0;
    while i < |feedbacks|
      invariant 0 <= i <= |feedbacks|
      invariant |data| == i
      invariant forall k :: 0 <= k < i ==> data[k] == Project(feedbacks[k])
    {
      data := data + [Project(feedbacks[i])];
      i := i + 1;
    }
    assert data == FeedbackData(feedbacks);
    r := Reconcile(complete(data, |feedbacks|), |feedbacks|, |keys.value|, now);
  }
}
