/** Requests for the question resource. */
module QuestionApi {
  import opened Base
  import opened Text
  import opened Api

  /** A call of one of the two API functions, with its arguments. */
  datatype Call =
    | ListCall(categorySlug: Option<string>, topicSlug: Option<string>,
               searchValue: Option<string>, verified: Option<bool>)
    | DetailsCall(questionSlug: string)

  /** `getAllQuestions(categorySlug, topicSlug, searchValue, verified)`:
      the query starts empty; each slug is sent when truthy (present and
      non-empty); the search is sent trimmed when its trim is non-empty;
      `verified` is sent only when it is `true`. */
  method GetAllQuestions(categorySlug: Option<string>, topicSlug: Option<string>,
                         searchValue: Option<string>, verified: Option<bool>)
    returns (req: Request)
    ensures req.verb == GET && req.path == "/question/all" && req.body == map[]
    ensures "categorySlug" in req.params <==> Truthy(categorySlug)
    ensures Truthy(categorySlug) ==> req.params["categorySlug"] == StrV(categorySlug.value)
    ensures "topicSlug" in req.params <==> Truthy(topicSlug)
    ensures Truthy(topicSlug) ==> req.params["topicSlug"] == StrV(topicSlug.value)
    ensures "searchValue" in req.params <==> searchValue.Some? && !IsBlank(searchValue.value)
    ensures "searchValue" in req.params ==> req.params["searchValue"] == StrV(Trim(searchValue.value))
    ensures "verified" in req.params <==> verified == Some(true)
    ensures "verified" in req.params ==> req.params["verified"] == BoolV(true)
    ensures req.params.Keys <= {"categorySlug", "topicSlug", "searchValue", "verified"}
  {
    var query: Json := map[];
    if Truthy(categorySlug) {
      query := query["categorySlug" := StrV(categorySlug.value)];
    }
    if Truthy(topicSlug) {
      query := query["topicSlug" := StrV(topicSlug.value)];
    }
    var trimmed := if searchValue.Some? then Trim(searchValue.value) else "";
    if trimmed != "" {
      query := query["searchValue" := StrV(trimmed)];
    }
    if verified == Some(true) {
      query := query["verified" := BoolV(true)];
    }
    req := Request(GET, "/question/all", query, map[]);
  }

  /** The question slug travels in the path. */
  method GetQuestionDetails(questionSlug: string) returns (req: Request)
    ensures req.verb == GET && req.params == map[] && req.body == map[]
    ensures |req.path| == |"/question/details/"| + |questionSlug|
    ensures req.path[..|"/question/details/"|] == "/question/details/"
    ensures req.path[|"/question/details/"|..] == questionSlug
  {
    req := Request(GET, "/question/details/" + questionSlug, map[], map[]);
  }
}
