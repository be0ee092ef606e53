/**
 * The feedback record store: the response mapping of a stored document, and
 * create, list, lookup and fetch-all over one collection of documents.
 */
module FeedbackService {
  import opened Wrappers
  import opened Documents
  import Models

  /** A record as the service returns it: exactly four fields. */
  datatype FeedbackView = FeedbackView(id: string, teamId: Value, answers: Value, createdAt: Value)

  function MissingKey(key: string): Exception {
    Raised(KeyError, "'" + key + "'")
  }

  /**
   * The response mapping of a stored document. The `id` is the text of the
   * document's `_id`; the other three fields are copied as stored. A missing
   * field raises `KeyError`, for the first missing key in the order read.
   */
  function Helper(doc: Document): (r: Result<FeedbackView, Exception>)
    ensures r.Ok? <==> "team_id" in doc.fields && "answers" in doc.fields && "created_at" in doc.fields
    ensures r.Ok? ==> r.value == FeedbackView(doc.id.hex, doc.fields["team_id"], doc.fields["answers"], doc.fields["created_at"])
    ensures "team_id" !in doc.fields ==> r == Err(MissingKey("team_id"))
    ensures "team_id" in doc.fields && "answers" !in doc.fields ==> r == Err(MissingKey("answers"))
    ensures "team_id" in doc.fields && "answers" in doc.fields && "created_at" !in doc.fields ==>
      r == Err(MissingKey("created_at"))
  {
    if "team_id" !in doc.fields then Err(MissingKey("team_id"))
    else if "answers" !in doc.fields then Err(MissingKey("answers"))
    else if "created_at" !in doc.fields then Err(MissingKey("created_at"))
    else Ok(FeedbackView(doc.id.hex, doc.fields["team_id"], doc.fields["answers"], doc.fields["created_at"]))
  }

  /**
   * The list comprehension over `Helper`: every document mapped in order, or
   * the exception of the first document that cannot be mapped.
   */
  function MapHelper(docs: seq<Document>): (r: Result<seq<FeedbackView>, Exception>)
    ensures r.Ok? <==> forall i :: 0 <= i < |docs| ==> Helper(docs[i]).Ok?
    ensures r.Ok? ==> |r.value| == |docs| && forall i :: 0 <= i < |docs| ==> Helper(docs[i]) == Ok(r.value[i])
    ensures r.Err? ==> exists i :: 0 <= i < |docs| && Helper(docs[i]) == Err(r.error)
                                  && forall j :: 0 <= j < i ==> Helper(docs[j]).Ok?
  {
    if docs == [] then Ok([])
    else match Helper(docs[0])
      case Err(e) => Err(e)
      case Ok(v) =>
        match MapHelper(docs[1..])
        case Err(e) =>
          ghost var i :| 0 <= i < |docs[1..]| && Helper(docs[1..][i]) == Err(e)
                         && forall j :: 0 <= j < i ==> Helper(docs[1..][j]).Ok?;
          assert Helper(docs[i + 1]) == Err(e);
          Err(e)
        case Ok(vs) =>
          assert forall i :: 1 <= i < |docs| ==> docs[i] == docs[1..][i - 1];
          Ok([v] + vs)
  }

  /** The identifiers of a sequence of documents. */
  function Ids(docs: seq<Document>): set<ObjectId> {
    set i | 0 <= i < |docs| :: docs[i].id
  }

  /** The store keeps `_id` unique: no two documents share one. */
  ghost predicate UniqueIds(docs: seq<Document>) {
    forall i, j :: 0 <= i < j < |docs| ==> docs[i].id != docs[j].id
  }

  /** `find_one({"_id": oid})`: the first document with that identifier. */
  function FindById(docs: seq<Document>, oid: ObjectId): (r: Option<Document>)
    ensures r.None? <==> oid !in Ids(docs)
    ensures r.Some? ==> r.value in docs && r.value.id == oid
  {
    if docs == [] then None
    else if docs[0].id == oid then Some(docs[0])
    else
      assert Ids(docs) == {docs[0].id} + Ids(docs[1..]) by {
        forall x | x in Ids(docs) ensures x in {docs[0].id} + Ids(docs[1..]) {
          var i :| 0 <= i < |docs| && docs[i].id == x;
          if i > 0 { assert docs[1..][i - 1] == docs[i]; }
        }
      }
      FindById(docs[1..], oid)
  }

  /** With unique identifiers, the document found is the one holding that identifier. */
  lemma FindByIdUnique(docs: seq<Document>, k: nat)
    requires UniqueIds(docs) && k < |docs|
    ensures FindById(docs, docs[k].id) == Some(docs[k])
  {
  }

  /** The text of the encoder's `OverflowError`. */
  const Int64Overflow := "MongoDB can only handle up to 8-byte ints"

  /** Every integer `insert_one` would encode for the record fits BSON's 64 bits. */
  predicate Encodable(f: Models.FeedbackCreate) {
    InInt64(f.teamId) && InInt64(f.answers.installationRating) && InInt64(f.answers.helpfulnessRating)
  }

  /**
   * Validation bounds the team id only from below, so a record can pass it
   * and still be refused by the encoder.
   */
  lemma ValidButUnencodable()
    ensures exists f :: Models.ValidFeedback(f) && !Encodable(f)
  {
    var f := Models.FeedbackCreate(0x8000_0000_0000_0000,
      Models.Answers(true, true, true, true, true, 5, 5, true, "fast", "nothing", None));
    assert Models.ValidFeedback(f) && !Encodable(f);
  }

  /** The document stored by a create: the request's `dict()`, its `created_at` and its new `_id`. */
  function StoredDocument(f: Models.FeedbackCreate, now: int, oid: ObjectId): Document {
    Document(oid, Models.FeedbackDict(f)["created_at" := Date(now)])
  }

  /** What a create returns: the view of the stored document. */
  lemma CreatedView(f: Models.FeedbackCreate, now: int, oid: ObjectId)
    ensures Helper(StoredDocument(f, now, oid))
         == Ok(FeedbackView(oid.hex, Int(f.teamId), Object(Models.AnswersDict(f.answers)), Date(now)))
  {
  }

  /**
   * `get_feedback_by_id` on a given store: `None` for an identifier that
   * `ObjectId.is_valid` rejects, `None` when no document matches, and the
   * view of the match otherwise. `parse` stands for `ObjectId.is_valid`
   * together with the `ObjectId(...)` conversion.
   */
  function Lookup(docs: seq<Document>, feedbackId: string, parse: string -> Option<ObjectId>)
    : (r: Result<Option<FeedbackView>, Exception>)
    ensures r.Ok? && r.value.Some? ==>
      parse(feedbackId).Some? && r.value.value.id == parse(feedbackId).value.hex
    ensures parse(feedbackId).Some? && parse(feedbackId).value !in Ids(docs) ==> r == Ok(None)
  {
    match parse(feedbackId)
    case None => Ok(None)
    case Some(oid) =>
      match FindById(docs, oid)
      case None => Ok(None)
      case Some(doc) =>
        match Helper(doc)
        case Err(e) => Err(e)
        case Ok(v) => Ok(Some(v))
  }

  /** Appending a document with a fresh identifier keeps identifiers unique. */
  lemma AppendKeepsUnique(docs: seq<Document>, doc: Document)
    requires UniqueIds(docs) && doc.id !in Ids(docs)
    ensures UniqueIds(docs + [doc])
  {
  }

  /**
   * A lookup of any stored document's identifier, when `parse` reads it back,
   * yields that document's view, or the error of mapping it.
   */
  lemma LookupFindsStored(docs: seq<Document>, k: nat, parse: string -> Option<ObjectId>)
    requires UniqueIds(docs) && k < |docs| && parse(docs[k].id.hex) == Some(docs[k].id)
    ensures Lookup(docs, docs[k].id.hex, parse) ==
      match Helper(docs[k])
      case Ok(v) => Ok(Some(v))
      case Err(e) => Err(e)
  {
    FindByIdUnique(docs, k);
  }

  /**
   * A create followed by a lookup with the returned id yields the created
   * record, provided the store's identifiers parse back to themselves.
   */
  lemma {:induction false} LookupFindsCreated(
    docs: seq<Document>, f: Models.FeedbackCreate, now: int, oid: ObjectId, parse: string -> Option<ObjectId>)
    requires UniqueIds(docs) && oid !in Ids(docs)
    requires parse(oid.hex) == Some(oid)
    ensures UniqueIds(docs + [StoredDocument(f, now, oid)])
    ensures Lookup(docs + [StoredDocument(f, now, oid)], oid.hex, parse)
         == Ok(Some(FeedbackView(oid.hex, Int(f.teamId), Object(Models.AnswersDict(f.answers)), Date(now))))
  {
    var after := docs + [StoredDocument(f, now, oid)];
    AppendKeepsUnique(docs, StoredDocument(f, now, oid));
    FindByIdUnique(after, |docs|);
    CreatedView(f, now, oid);
  }

  /** The `created_at` date of a document, if it has one. */
  function CreatedAt(doc: Document): Option<int> {
    if "created_at" in doc.fields && doc.fields["created_at"].Date? then Some(doc.fields["created_at"].ms)
    else None
  }

  /**
   * The descending order on `created_at`: later dates first, and documents
   * without a date after every dated one.
   */
  predicate NewerOrSame(a: Document, b: Document) {
    match CreatedAt(b)
    case None => true
    case Some(y) => CreatedAt(a).Some? && CreatedAt(a).value >= y
  }

  predicate NewestFirst(s: seq<Document>) {
    forall i, j :: 0 <= i < j < |s| ==> NewerOrSame(s[i], s[j])
  }

  function Insert(doc: Document, s: seq<Document>): seq<Document> {
    if s == [] || NewerOrSame(doc, s[0]) then [doc] + s
    else [s[0]] + Insert(doc, s[1..])
  }

  /** `sort("created_at", -1)`. */
  function SortNewestFirst(docs: seq<Document>): seq<Document> {
    if docs == [] then [] else Insert(docs[0], SortNewestFirst(docs[1..]))
  }

  /** Inserting adds exactly the one document, at the front or behind the old head. */
  lemma {:induction false} InsertAdds(doc: Document, s: seq<Document>)
    ensures multiset(Insert(doc, s)) == multiset(s) + multiset{doc}
    ensures Insert(doc, s)[0] == doc || (s != [] && Insert(doc, s)[0] == s[0])
    ensures forall x :: x in Insert(doc, s) ==> x == doc || x in s
  {
    if s != [] && !NewerOrSame(doc, s[0]) {
      InsertAdds(doc, s[1..]);
      assert s == [s[0]] + s[1..];
    }
  }

  lemma {:induction false} InsertKeeps(doc: Document, s: seq<Document>)
    requires NewestFirst(s)
    ensures NewestFirst(Insert(doc, s))
  {
    if s == [] || NewerOrSame(doc, s[0]) {
      var r := [doc] + s;
      forall i, j | 0 <= i < j < |r| ensures NewerOrSame(r[i], r[j]) {
        if i == 0 && j > 1 { assert NewerOrSame(s[0], s[j - 1]); }
      }
    } else {
      var tail := s[1..];
      assert NewestFirst(tail) by {
        forall i, j | 0 <= i < j < |tail| ensures NewerOrSame(tail[i], tail[j]) {
          assert tail[i] == s[i + 1] && tail[j] == s[j + 1];
        }
      }
      InsertKeeps(doc, tail);
      InsertAdds(doc, tail);
      var rest := Insert(doc, tail);
      var r := [s[0]] + rest;
      assert NewerOrSame(s[0], doc);
      forall x | x in tail ensures NewerOrSame(s[0], x) {
        var k :| 0 <= k < |tail| && tail[k] == x;
        assert s[k + 1] == x;
      }
      forall j | 0 < j < |r| ensures NewerOrSame(s[0], r[j]) {
        assert r[j] in rest;
      }
      forall i, j | 0 < i < j < |r| ensures NewerOrSame(r[i], r[j]) {
        assert r[i] == rest[i - 1] && r[j] == rest[j - 1];
      }
    }
  }

  /** The sort orders the documents newest first and keeps every one of them. */
  lemma {:induction false} SortKeeps(docs: seq<Document>)
    ensures NewestFirst(SortNewestFirst(docs))
    ensures multiset(SortNewestFirst(docs)) == multiset(docs)
  {
    if docs != [] {
      SortKeeps(docs[1..]);
      InsertKeeps(docs[0], SortNewestFirst(docs[1..]));
      InsertAdds(docs[0], SortNewestFirst(docs[1..]));
      assert docs == [docs[0]] + docs[1..];
    }
  }

  /** `find({}).skip(skip).limit(limit).sort("created_at", -1)`: one page of the sorted collection. */
  function Page(docs: seq<Document>, skip: nat, limit: nat): (r: seq<Document>)
    ensures |r| <= limit
  {
    var sorted := SortNewestFirst(docs);
    var lo := if skip <= |sorted| then skip else |sorted|;
    var hi := if lo + limit <= |sorted| then lo + limit else |sorted|;
    sorted[lo..hi]
  }

  lemma SliceKeeps(s: seq<Document>, lo: nat, hi: nat)
    requires lo <= hi <= |s| && NewestFirst(s)
    ensures NewestFirst(s[lo..hi])
    ensures multiset(s[lo..hi]) <= multiset(s)
  {
    var p := s[lo..hi];
    forall i, j | 0 <= i < j < |p| ensures NewerOrSame(p[i], p[j]) {
      assert p[i] == s[lo + i] && p[j] == s[lo + j];
    }
    assert s == s[..lo] + p + s[hi..];
  }

  /** A page holds at most `limit` stored documents, newest first. */
  lemma PageShape(docs: seq<Document>, skip: nat, limit: nat)
    ensures |Page(docs, skip, limit)| <= limit
    ensures NewestFirst(Page(docs, skip, limit))
    ensures multiset(Page(docs, skip, limit)) <= multiset(docs)
  {
    var sorted := SortNewestFirst(docs);
    SortKeeps(docs);
    var lo := if skip <= |sorted| then skip else |sorted|;
    var hi := if lo + limit <= |sorted| then lo + limit else |sorted|;
    assert Page(docs, skip, limit) == sorted[lo..hi];
    SliceKeeps(sorted, lo, hi);
  }

  /** One page as large as the collection holds every stored document, each as often as stored. */
  lemma FullPageKeepsAll(docs: seq<Document>)
    ensures multiset(Page(docs, 0, |docs|)) == multiset(docs)
  {
    SortKeeps(docs);
    assert |SortNewestFirst(docs)| == |multiset(SortNewestFirst(docs))| == |docs|;
    assert Page(docs, 0, |docs|) == SortNewestFirst(docs)[0..|docs|];
    assert SortNewestFirst(docs)[0..|docs|] == SortNewestFirst(docs);
  }

  /**
   * Consecutive pages concatenate to the larger page: no document is
   * repeated between them, and with `FullPageKeepsAll` none is skipped.
   * This rests on one fixed order among documents with equal `created_at`,
   * which the server does not promise across queries.
   */
  lemma PagesTile(docs: seq<Document>, skip: nat, n: nat, m: nat)
    ensures Page(docs, skip, n) + Page(docs, skip + n, m) == Page(docs, skip, n + m)
  {
  }

  /**
   * The collection of feedback documents, in the store's natural order.
   * Every method that queries it takes `fault`: the failure the store
   * reports for that query, if any.
   */
  class FeedbackCollection {
    var docs: seq<Document>

    ghost predicate Valid()
      reads this
    {
      UniqueIds(docs)
    }

    constructor ()
      ensures Valid() && docs == []
    {
      docs := [];
    }

    /**
     * `create_feedback`: stores the request's fields with `created_at` set to
     * `now` under the new identifier `oid`, reads it back and returns its
     * view. A record the BSON encoder refuses, an insert failure or an
     * identifier already taken raises and stores nothing; a failure of the
     * read-back raises after the insert.
     */
    method CreateFeedback(f: Models.FeedbackCreate, now: int, oid: ObjectId,
                          insertFault: Option<string>, readFault: Option<string>)
      returns (r: Result<FeedbackView, Exception>)
      requires Valid()
      modifies this
      ensures Valid()
      ensures !Encodable(f) ==> r == Err(Raised(OverflowError, Int64Overflow)) && docs == old(docs)
      ensures Encodable(f) && insertFault.Some? ==>
        r == Err(Raised(PyMongoError, insertFault.value)) && docs == old(docs)
      ensures Encodable(f) && insertFault.None? && oid in Ids(old(docs)) ==>
        r == Err(Raised(DuplicateKeyError, "E11000 duplicate key error")) && docs == old(docs)
      ensures Encodable(f) && insertFault.None? && oid !in Ids(old(docs)) ==>
        && docs == old(docs) + [StoredDocument(f, now, oid)]
        && (readFault.Some? ==> r == Err(Raised(PyMongoError, readFault.value)))
        && (readFault.None? ==>
              r == Ok(FeedbackView(oid.hex, Int(f.teamId), Object(Models.AnswersDict(f.answers)), Date(now))))
    {
      if !Encodable(f) {
        return Err(Raised(OverflowError, Int64Overflow));
      }
      if insertFault.Some? {
        return Err(Raised(PyMongoError, insertFault.value));
      }
      if oid in Ids(docs) {
        return Err(Raised(DuplicateKeyError, "E11000 duplicate key error"));
      }
      var stored := StoredDocument(f, now, oid);
      AppendKeepsUnique(docs, stored);
      docs := docs + [stored];
      if readFault.Some? {
        return Err(Raised(PyMongoError, readFault.value));
      }
      FindByIdUnique(docs, |docs| - 1);
      var created := FindById(docs, oid).value;
      CreatedView(f, now, oid);
      r := Helper(created);
    }

    /**
     * `get_feedbacks`: at most `limit` records, newest first, each mapped
     * by `Helper`; store failures and mapping failures are raised.
     */
    method GetFeedbacks(skip: nat, limit: nat, fault: Option<string>)
      returns (r: Result<seq<FeedbackView>, Exception>)
      requires limit >= 1
      ensures fault.Some? ==> r == Err(Raised(PyMongoError, fault.value))
      ensures fault.None? ==> r == MapHelper(Page(docs, skip, limit))
      ensures r.Ok? ==> |r.value| <= limit
    {
      if fault.Some? {
        return Err(Raised(PyMongoError, fault.value));
      }
      var page := Page(docs, skip, limit);
      PageShape(docs, skip, limit);
      r := MapHelper(page);
    }

    /**
     * `get_feedback_by_id`: an identifier that `parse` rejects gives `None`
     * before the store is queried, so a store failure cannot surface then;
     * a valid identifier with no match gives `None`.
     */
    method GetFeedbackById(feedbackId: string, parse: string -> Option<ObjectId>, fault: Option<string>)
      returns (r: Result<Option<FeedbackView>, Exception>)
      ensures parse(feedbackId).None? ==> r == Ok(None)
      ensures parse(feedbackId).Some? && fault.Some? ==> r == Err(Raised(PyMongoError, fault.value))
      ensures parse(feedbackId).Some? && fault.None? ==> r == Lookup(docs, feedbackId, parse)
      ensures parse(feedbackId).Some? && fault.None? && parse(feedbackId).value !in Ids(docs) ==> r == Ok(None)
    {
      var oid := parse(feedbackId);
      if oid.None? {
        return Ok(None);
      }
      if fault.Some? {
        return Err(Raised(PyMongoError, fault.value));
      }
      var found := FindById(docs, oid.value);
      if found.None? {
        return Ok(None);
      }
      var view := Helper(found.value);
      match view {
        case Err(e) => r := Err(e);
        case Ok(v) => r := Ok(Some(v));
      }
    }

    /** `get_all_feedbacks`: every stored document, raw and in store order. */
    method GetAllFeedbacks(fault: Option<string>) returns (r: Result<seq<Document>, Exception>)
      ensures fault.Some? ==> r == Err(Raised(PyMongoError, fault.value))
      ensures fault.None? ==> r == Ok(docs)
    {
      if fault.Some? {
        return Err(Raised(PyMongoError, fault.value));
      }
      r := Ok(docs);
    }
  }
}
