/** `findAllActiveMembers`, `findAllInactiveMembers` and `searchMembers`. */
module Members {
  import opened Json
  import opened Http
  import opened Listings

  const Path := "user/viewAllMembers"

  /** The GET a fetch sends, and what it returns. */
  datatype Query = Query(request: Request, result: Listing)

  /** The active or inactive page: `searchParam 'members'` with the status as `searchValue`. */
  function Active(jwt: string, page: int, limit: int, fetch: Fetch): (r: Query)
    ensures r.request == ListRequest(Path, jwt, "members", "active", page, limit) && r.result == Page(fetch)
    ensures r.request.params["searchParam"] == Str("members") && r.request.params["searchValue"] == Str("active")
  {
    Query(ListRequest(Path, jwt, "members", "active", page, limit), Page(fetch))
  }

  function Inactive(jwt: string, page: int, limit: int, fetch: Fetch): (r: Query)
    ensures r.request == ListRequest(Path, jwt, "members", "inactive", page, limit) && r.result == Page(fetch)
    ensures r.request.params["searchParam"] == Str("members") && r.request.params["searchValue"] == Str("inactive")
  {
    Query(ListRequest(Path, jwt, "members", "inactive", page, limit), Page(fetch))
  }

  /** A member id or an email picks out one member: the body is the member itself. */
  predicate Unique(searchParam: string)
  {
    searchParam == "memberId" || searchParam == "email"
  }

  function Search(jwt: string, searchParam: string, searchValue: string, page: int, limit: int, fetch: Fetch): (r: Query)
    ensures r.request == ListRequest(Path, jwt, searchParam, searchValue, page, limit)
    ensures Readable(fetch) && Unique(searchParam) ==> r.result.list == Arr([Body(fetch)])
    ensures r.result == Listings.Search(fetch, Unique(searchParam))
  {
    Query(ListRequest(Path, jwt, searchParam, searchValue, page, limit), Listings.Search(fetch, Unique(searchParam)))
  }
}
