/** Requests for the topic resource. */
module TopicApi {
  import opened Base
  import opened Text
  import opened Api
  import opened Entities

  /** The body of a list response. */
  datatype ListBody = ListBody(data: seq<Topic>, page: int, totalPages: int)

  /** A call of one of the four API functions, with its arguments. */
  datatype Call =
    | CreateCall(data: Json)
    | UpdateCall(data: Json, slug: string)
    | DeleteCall(id: string)
    | ListCall(category: string, page: int, searchValue: string, isVerified: Option<bool>)

  method CreateTopic(data: Json) returns (req: Request)
    ensures req == Request(POST, "/topic/create", map[], data)
  {
    req := Request(POST, "/topic/create", map[], data);
  }

  /** The slug travels in the path. */
  method UpdateTopic(data: Json, slug: string) returns (req: Request)
    ensures req.verb == PATCH && req.params == map[] && req.body == data
    ensures |req.path| == |"/topic/update/"| + |slug|
    ensures req.path[..|"/topic/update/"|] == "/topic/update/"
    ensures req.path[|"/topic/update/"|..] == slug
  {
    req := Request(PATCH, "/topic/update/" + slug, map[], data);
  }

  /** The id travels in the path. */
  method DeleteTopic(id: string) returns (req: Request)
    ensures req.verb == DELETE && req.params == map[] && req.body == map[]
    ensures |req.path| == |"/topic/delete/"| + |id|
    ensures req.path[..|"/topic/delete/"|] == "/topic/delete/"
    ensures req.path[|"/topic/delete/"|..] == id
  {
    req := Request(DELETE, "/topic/delete/" + id, map[], map[]);
  }

  /** `getTopics(category, page, searchValue, isVerified)`: the query always
      holds `page` and never a `limit`; `searchValue` and `categorySlug`
      are sent as given when not blank; `isVerified` whenever it is not
      null. The category never goes into the path. */
  method GetTopics(category: string, page: int, searchValue: string, isVerified: Option<bool>)
    returns (req: Request)
    ensures req.verb == GET && req.path == "/topic/all" && req.body == map[]
    ensures "page" in req.params && req.params["page"] == NumV(page)
    ensures "limit" !in req.params
    ensures "searchValue" in req.params <==> !IsBlank(searchValue)
    ensures "searchValue" in req.params ==> req.params["searchValue"] == StrV(searchValue)
    ensures "isVerified" in req.params <==> isVerified.Some?
    ensures isVerified.Some? ==> req.params["isVerified"] == BoolV(isVerified.value)
    ensures "categorySlug" in req.params <==> !IsBlank(category)
    ensures "categorySlug" in req.params ==> req.params["categorySlug"] == StrV(category)
    ensures req.params.Keys <= {"page", "searchValue", "isVerified", "categorySlug"}
  {
    var query: Json := map["page" := NumV(page)];
    if !IsBlank(searchValue) {
      query := query["searchValue" := StrV(searchValue)];
    }
    if isVerified.Some? {
      query := query["isVerified" := BoolV(isVerified.value)];
    }
    if !IsBlank(category) {
      query := query["categorySlug" := StrV(category)];
    }
    req := Request(GET, "/topic/all", query, map[]);
  }
}
