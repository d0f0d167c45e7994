/** Requests for the category resource. */
module CategoryApi {
  import opened Base
  import opened Text
  import opened Api
  import opened Entities

  /** Page size the category list always asks for. */
  const PageLimit := 10

  /** `getCategories()`'s defaults: page 1, no search, no verification
      filter. */
  const DefaultPage := 1
  const DefaultSearch := ""
  const DefaultIsVerified: Option<bool> := None

  /** The body of a list response. */
  datatype ListBody = ListBody(data: seq<Category>, page: int, totalPages: int)

  /** A call of one of the four API functions, with its arguments, as a
      page or form issues it. */
  datatype Call =
    | CreateCall(data: Json)
    | UpdateCall(data: Json, slug: string)
    | DeleteCall(id: string)
    | ListCall(page: int, searchValue: string, isVerified: Option<bool>)

  method CreateCategory(data: Json) returns (req: Request)
    ensures req == Request(POST, "/category/create", map[], data)
  {
    req := Request(POST, "/category/create", map[], data);
  }

  /** The slug travels in the path. */
  method UpdateCategory(data: Json, slug: string) returns (req: Request)
    ensures req.verb == PATCH && req.params == map[] && req.body == data
    ensures |req.path| == |"/category/update/"| + |slug|
    ensures req.path[..|"/category/update/"|] == "/category/update/"
    ensures req.path[|"/category/update/"|..] == slug
  {
    req := Request(PATCH, "/category/update/" + slug, map[], data);
  }

  /** The id travels in the path. */
  method DeleteCategory(id: string) returns (req: Request)
    ensures req.verb == DELETE && req.params == map[] && req.body == map[]
    ensures |req.path| == |"/category/delete/"| + |id|
    ensures req.path[..|"/category/delete/"|] == "/category/delete/"
    ensures req.path[|"/category/delete/"|..] == id
  {
    req := Request(DELETE, "/category/delete/" + id, map[], map[]);
  }

  /** `getCategories(page, searchValue, isVerified)`: the query always holds
      `page` and `limit = 10`; `searchValue` is sent as given when it is not
      blank; `isVerified` is sent whenever it is not null, `false`
      included. */
  method GetCategories(page: int, searchValue: string, isVerified: Option<bool>) returns (req: Request)
    ensures req.verb == GET && req.path == "/category/all" && req.body == map[]
    ensures "page" in req.params && req.params["page"] == NumV(page)
    ensures "limit" in req.params && req.params["limit"] == NumV(PageLimit)
    ensures "searchValue" in req.params <==> !IsBlank(searchValue)
    ensures "searchValue" in req.params ==> req.params["searchValue"] == StrV(searchValue)
    ensures "isVerified" in req.params <==> isVerified.Some?
    ensures isVerified.Some? ==> req.params["isVerified"] == BoolV(isVerified.value)
    ensures req.params.Keys <= {"page", "limit", "searchValue", "isVerified"}
  {
    var query: Json := map["page" := NumV(page), "limit" := NumV(PageLimit)];
    if !IsBlank(searchValue) {
      query := query["searchValue" := StrV(searchValue)];
    }
    if isVerified.Some? {
      query := query["isVerified" := BoolV(isVerified.value)];
    }
    req := Request(GET, "/category/all", query, map[]);
  }
}
